/**
 * The stateless reporters behind `/health`, `/ready` and `/version`. The
 * wall clock, the process uptime and the environment are not read here:
 * they arrive as parameters.
 */
module Status {
  import opened Wrappers
  import opened Js
  import opened Http

  /** The environment variables the version report reads; absent ones are `None`. */
  datatype Env = Env(
    version: Option<string>,
    buildTime: Option<string>,
    commitSha: Option<string>,
    environment: Option<string>)

  const DefaultVersion := "1.0.0"
  const DefaultCommitSha := "dev"
  const DefaultEnvironment := "local"

  /** Liveness: always 200 and "healthy", with the given time and uptime. */
  function Health(now: string, uptime: real): (r: Response)
    ensures r.status == OK && r.body.HealthReport?
    ensures r.body.state == "healthy" && r.body.timestamp == now && r.body.uptime == uptime
  {
    Response(OK, HealthReport("healthy", now, uptime))
  }

  /** Readiness: unconditional, always 200 and "ready". */
  function Ready(now: string): (r: Response)
    ensures r.status == OK && r.body.ReadyReport?
    ensures r.body.state == "ready" && r.body.timestamp == now
  {
    Response(OK, ReadyReport("ready", now))
  }

  /**
   * Build metadata: each field is the environment value when it is set and
   * non-empty, and otherwise its default; the build time defaults to the
   * current time.
   */
  function Version(env: Env, now: string): (r: Response)
    ensures r.status == OK && r.body.VersionReport?
    ensures r.body.version == (if Falsy(env.version) then DefaultVersion else env.version.value)
    ensures r.body.buildTime == (if Falsy(env.buildTime) then now else env.buildTime.value)
    ensures r.body.commitSha == (if Falsy(env.commitSha) then DefaultCommitSha else env.commitSha.value)
    ensures r.body.environment == (if Falsy(env.environment) then DefaultEnvironment else env.environment.value)
  {
    Response(OK, VersionReport(
      OrElse(env.version, DefaultVersion),
      OrElse(env.buildTime, now),
      OrElse(env.commitSha, DefaultCommitSha),
      OrElse(env.environment, DefaultEnvironment)))
  }
}
