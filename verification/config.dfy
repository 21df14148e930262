/**
  Start-up configuration (`main` and `serve` in main.go): every setting has
  a command-line flag, and a same-purpose environment variable that, when
  present, overrides it. Boolean variables go through Go's
  `strconv.ParseBool` with the error dropped, so a value it rejects reads
  as false. The listen port comes only from `PORT`, defaulting to 8080.
 */
module Config {
  import opened Results

  /** The command-line flags, after `flag.Parse`. */
  datatype Flags = Flags(
    slackToken: string,
    sendToSlack: bool,
    openAIToken: string,
    gcsBucket: string,
    debug: bool)

  /** The flag values when none is given on the command line. */
  const DefaultFlags: Flags := Flags("", false, "", "", false)

  /** The process environment: variable name to value. A variable set to
      the empty string is present. */
  type Env = map<string, string>

  /** The settings the running bot reads. */
  datatype Settings = Settings(
    slackToken: string,
    sendToSlack: bool,
    openAIToken: string,
    gcsBucket: string,
    debug: bool,
    port: string)

  const SlackTokenVar: string := "SLACK_TOKEN"
  const SendToSlackVar: string := "SEND_TO_SLACK"
  const OpenAITokenVar: string := "OPEN_AI_TOKEN"
  const GcsBucketVar: string := "GCS_BUCKET"
  const DebugVar: string := "BOT_DEBUG"
  const PortVar: string := "PORT"
  const DefaultPort: string := "8080"

  /** The spellings `strconv.ParseBool` reads as true, and as false. */
  const TrueSpellings: set<string> := {"1", "t", "T", "true", "TRUE", "True"}
  const FalseSpellings: set<string> := {"0", "f", "F", "false", "FALSE", "False"}

  /** `strconv.ParseBool`: a switch over the accepted spellings; anything
      else is a syntax error. */
  function ParseBool(s: string): (r: Outcome<bool>)
    ensures r.Ok? <==> s in TrueSpellings + FalseSpellings
    ensures r == Ok(true) <==> s in TrueSpellings
    ensures r == Ok(false) <==> s in FalseSpellings
  {
    if s == "1" || s == "t" || s == "T" || s == "true" || s == "TRUE" || s == "True" then Ok(true)
    else if s == "0" || s == "f" || s == "F" || s == "false" || s == "FALSE" || s == "False" then Ok(false)
    else Failed("invalid syntax")
  }

  /** `v, _ := strconv.ParseBool(s)`: the error is dropped and the value
      returned alongside it, false, is kept. */
  function ParseBoolOrFalse(s: string): (b: bool)
    ensures b <==> s in TrueSpellings
  {
    match ParseBool(s)
    case Ok(v) => v
    case Failed(_) => false
  }

  /** A string setting: the variable's value when it is set, even to the
      empty string, and the flag otherwise. */
  function StringSetting(env: Env, name: string, flag: string): (v: string)
    ensures name in env ==> v == env[name]
    ensures name !in env ==> v == flag
  {
    if name in env then env[name] else flag
  }

  /** A boolean setting: the parsed variable when it is set, the flag
      otherwise. */
  function BoolSetting(env: Env, name: string, flag: bool): (v: bool)
    ensures name in env ==> (v <==> env[name] in TrueSpellings)
    ensures name !in env ==> v == flag
  {
    if name in env then ParseBoolOrFalse(env[name]) else flag
  }

  /** `os.Getenv("PORT")` with the empty value replaced by 8080: an unset
      and an empty `PORT` are the same to `serve`. */
  function Port(env: Env): (port: string)
    ensures port != []
    ensures PortVar in env && env[PortVar] != [] ==> port == env[PortVar]
    ensures PortVar !in env || env[PortVar] == [] ==> port == DefaultPort
  {
    var v := if PortVar in env then env[PortVar] else "";
    if v == "" then DefaultPort else v
  }

  /** The address `serve` listens on: all interfaces, the resolved port. */
  function ListenAddress(env: Env): (addr: string)
    ensures |addr| > 1 && addr[0] == ':' && addr[1..] == Port(env)
  {
    ":" + Port(env)
  }

  /** The settings `main` and `serve` arrive at: each present variable
      replaces its flag, each absent one leaves the flag in force. */
  function Resolve(flags: Flags, env: Env): (s: Settings)
    ensures SlackTokenVar in env ==> s.slackToken == env[SlackTokenVar]
    ensures SlackTokenVar !in env ==> s.slackToken == flags.slackToken
    ensures SendToSlackVar in env ==> (s.sendToSlack <==> env[SendToSlackVar] in TrueSpellings)
    ensures SendToSlackVar !in env ==> s.sendToSlack == flags.sendToSlack
    ensures OpenAITokenVar in env ==> s.openAIToken == env[OpenAITokenVar]
    ensures OpenAITokenVar !in env ==> s.openAIToken == flags.openAIToken
    ensures GcsBucketVar in env ==> s.gcsBucket == env[GcsBucketVar]
    ensures GcsBucketVar !in env ==> s.gcsBucket == flags.gcsBucket
    ensures DebugVar in env ==> (s.debug <==> env[DebugVar] in TrueSpellings)
    ensures DebugVar !in env ==> s.debug == flags.debug
    ensures s.port == Port(env)
  {
    Settings(
      slackToken := StringSetting(env, SlackTokenVar, flags.slackToken),
      sendToSlack := BoolSetting(env, SendToSlackVar, flags.sendToSlack),
      openAIToken := StringSetting(env, OpenAITokenVar, flags.openAIToken),
      gcsBucket := StringSetting(env, GcsBucketVar, flags.gcsBucket),
      debug := BoolSetting(env, DebugVar, flags.debug),
      port := Port(env))
  }

  /** With no environment the flags are used as given and the port is 8080;
      with no flags either, every token is empty and both switches are off. */
  lemma ResolveWithoutEnv(flags: Flags)
    ensures Resolve(flags, map[]) ==
      Settings(flags.slackToken, flags.sendToSlack, flags.openAIToken, flags.gcsBucket, flags.debug, DefaultPort)
    ensures Resolve(DefaultFlags, map[]) == Settings("", false, "", "", false, "8080")
  {
  }

  /** When every overridable variable is set, the flags no longer matter. */
  lemma EnvOverridesAllFlags(f1: Flags, f2: Flags, env: Env)
    requires SlackTokenVar in env && SendToSlackVar in env && OpenAITokenVar in env
    requires GcsBucketVar in env && DebugVar in env
    ensures Resolve(f1, env) == Resolve(f2, env)
  {
  }

  /** A variable that is absent leaves its flag in force: a setting differs
      from its flag only when its variable is present. */
  lemma OnlyPresentVariablesOverride(flags: Flags, env: Env)
    ensures Resolve(flags, env).slackToken != flags.slackToken ==> SlackTokenVar in env
    ensures Resolve(flags, env).sendToSlack != flags.sendToSlack ==> SendToSlackVar in env
    ensures Resolve(flags, env).openAIToken != flags.openAIToken ==> OpenAITokenVar in env
    ensures Resolve(flags, env).gcsBucket != flags.gcsBucket ==> GcsBucketVar in env
    ensures Resolve(flags, env).debug != flags.debug ==> DebugVar in env
  {
  }

  /** A boolean variable the parser rejects turns the setting off whatever
      the flag says; an empty value is such a variable. */
  lemma UnparsableBoolIsFalse(flags: Flags, env: Env)
    ensures SendToSlackVar in env && ParseBool(env[SendToSlackVar]).Failed? ==> !Resolve(flags, env).sendToSlack
    ensures DebugVar in env && ParseBool(env[DebugVar]).Failed? ==> !Resolve(flags, env).debug
  {
  }

  /** An empty `SLACK_TOKEN` overrides the flag with the empty token, while
      an empty `PORT` falls back to 8080. */
  lemma EmptyValueExamples(flags: Flags)
    ensures Resolve(flags, map[SlackTokenVar := "", PortVar := ""]).slackToken == ""
    ensures Resolve(flags, map[SlackTokenVar := "", PortVar := ""]).port == DefaultPort
    ensures Resolve(flags, map[SendToSlackVar := ""]).sendToSlack == false
    ensures Resolve(flags, map[SendToSlackVar := "yes"]).sendToSlack == false
    ensures Resolve(flags, map[SendToSlackVar := "T"]).sendToSlack == true
  {
  }
}
