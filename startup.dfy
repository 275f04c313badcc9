/** The collector's start-up configuration: where the Redis server is, which
    hashtag to follow, and whether the Twitter credentials are all set. */
module Startup {
  import opened Wrappers

  const DefaultHashtag := "OpenStackSummit"
  const DefaultHost := "localhost"
  const DefaultPort := 6379

  /** The environment variables read at start-up; an unset variable reads as
      the empty string. */
  datatype Env = Env(
    consumerKey: string, consumerSecret: string,
    accessToken: string, accessSecret: string,
    redisHost: string, redisPort: string)

  datatype Credentials = Credentials(consumerKey: string, consumerSecret: string, accessToken: string, accessSecret: string)

  datatype Config = Config(host: string, port: int, hashtag: string, credentials: Credentials)

  /** Either the process exits with a status code, or it goes on with a
      configuration. */
  datatype Outcome = Exit(code: int) | Proceed(config: Config)

  /** True when one of the four Twitter credentials is unset. */
  predicate MissingCredential(env: Env)
  {
    env.consumerKey == "" || env.consumerSecret == "" || env.accessToken == "" || env.accessSecret == ""
  }

  /** Resolves the configuration from the environment, the command-line
      arguments `args` (`args[0]` being the program) and the integer parser
      `atoi`. The Redis host and port fall back to their defaults when unset,
      and the port also when it does not parse (the process only warns); the
      hashtag is the first argument if there is one. Missing credentials end
      the process with status 1. */
  function Resolve(env: Env, args: seq<string>, atoi: string -> Option<int>): (r: Outcome)
    ensures r.Exit? <==> MissingCredential(env)
    ensures r.Exit? ==> r.code == 1
    ensures r.Proceed? ==>
      var c := r.config;
      && c.host != ""
      && (env.redisHost != "" ==> c.host == env.redisHost)
      && (env.redisHost == "" ==> c.host == DefaultHost)
      && (env.redisPort != "" && atoi(env.redisPort).Some? ==> c.port == atoi(env.redisPort).value)
      && (env.redisPort == "" || atoi(env.redisPort).None? ==> c.port == DefaultPort)
      && (|args| > 1 ==> c.hashtag == args[1])
      && (|args| <= 1 ==> c.hashtag == DefaultHashtag)
      && c.credentials == Credentials(env.consumerKey, env.consumerSecret, env.accessToken, env.accessSecret)
  {
    var host := if env.redisHost != "" then env.redisHost else DefaultHost;
    var port :=
      if env.redisPort == "" then DefaultPort
      else match atoi(env.redisPort)
        case None => DefaultPort
        case Some(p) => p;
    var hashtag := if |args| > 1 then args[1] else DefaultHashtag;
    if MissingCredential(env) then Exit(1)
    else Proceed(Config(host, port, hashtag,
      Credentials(env.consumerKey, env.consumerSecret, env.accessToken, env.accessSecret)))
  }
}
