/**
 * Configuration loading (src/config/index.js): an environment map is turned
 * into the application configuration, or into the start-up failure that
 * names every required variable that is absent or empty.
 */
module Config {
  import opened Wrappers
  import JsText

  /** `process.env`: variable name to value; a name not in the map is unset. */
  type Env = map<string, string>

  datatype VoiceSettings = VoiceSettings(stability: real, similarityBoost: real)

  datatype AgentProfile = AgentProfile(voiceId: string, modelId: string, settings: VoiceSettings)

  /** `process.env.PORT || 9000`: the raw string when set, otherwise the number. */
  datatype Port = EnvPort(text: string) | DefaultPort(number: nat)

  datatype CorsOptions = CorsOptions(origin: string, methods: seq<string>)

  datatype AppConfig = AppConfig(
    port: Port,
    nodeEnv: string,
    apiKey: string,
    agents: map<string, AgentProfile>,
    cors: CorsOptions)

  const ApiKeyVar := "ELEVENLABS_API_KEY"
  const Agent1VoiceVar := "AGENT1_VOICE_ID"
  const Agent2VoiceVar := "AGENT2_VOICE_ID"

  /** The variables whose absence stops start-up, in the order they are reported. */
  const RequiredEnvVars: seq<string> := [ApiKeyVar, Agent1VoiceVar, Agent2VoiceVar]

  const MissingPrefix := "Missing required environment variables: "

  const DefaultPortNumber: nat := 9000
  const DefaultNodeEnv := "development"
  const DefaultCorsOrigin := "*"
  const CorsMethods: seq<string> := ["GET", "POST"]

  /** Both agents share these synthesis settings. */
  const SharedSettings := VoiceSettings(0.5, 0.8)

  /** `process.env[name]` is truthy: set and not the empty string. */
  predicate IsSet(env: Env, name: string)
  {
    name in env && env[name] != ""
  }

  /** `process.env[name] || fallback`. */
  function OrDefault(env: Env, name: string, fallback: string): (r: string)
    ensures IsSet(env, name) ==> r == env[name]
    ensures !IsSet(env, name) ==> r == fallback
  {
    if IsSet(env, name) then env[name] else fallback
  }

  /** The value read for a field that has no fallback (unset reads as empty here). */
  function Read(env: Env, name: string): string
  {
    if name in env then env[name] else ""
  }

  /**
   * `names.filter(n => !process.env[n])`: the names that are unset or empty,
   * in their original order.
   */
  function MissingEnvVars(env: Env, names: seq<string>): (r: seq<string>)
    ensures |r| <= |names|
    ensures forall n :: n in r <==> n in names && !IsSet(env, n)
  {
    if names == [] then []
    else
      var rest := MissingEnvVars(env, names[1..]);
      assert names == [names[0]] + names[1..];
      if IsSet(env, names[0]) then rest else [names[0]] + rest
  }

  /** The message of the start-up error. */
  function MissingMessage(missing: seq<string>): string
  {
    MissingPrefix + JsText.Join(missing, ", ")
  }

  /** The agent registry literal; voice ids come from the environment. */
  function Registry(env: Env): map<string, AgentProfile>
  {
    map[
      "agent1" := AgentProfile(Read(env, Agent1VoiceVar), "v1", SharedSettings),
      "agent2" := AgentProfile(Read(env, Agent2VoiceVar), "eleven_monolingual_v1", SharedSettings)
    ]
  }

  /** The configuration object literal, built before validation. */
  function Build(env: Env): AppConfig
  {
    AppConfig(
      if IsSet(env, "PORT") then EnvPort(env["PORT"]) else DefaultPort(DefaultPortNumber),
      OrDefault(env, "NODE_ENV", DefaultNodeEnv),
      Read(env, ApiKeyVar),
      Registry(env),
      CorsOptions(OrDefault(env, "CORS_ORIGIN", DefaultCorsOrigin), CorsMethods))
  }

  /**
   * Loading the module: it fails exactly when some required variable is unset
   * or empty, with the fixed message naming them; when it succeeds the API key
   * and both voice ids are non-empty values taken from the environment.
   */
  function Load(env: Env): (r: Result<AppConfig, string>)
    ensures r.Failure? <==> MissingEnvVars(env, RequiredEnvVars) != []
    ensures r.Failure? ==> r.error == MissingMessage(MissingEnvVars(env, RequiredEnvVars))
    ensures r.Success? ==>
              && r.value.agents.Keys == {"agent1", "agent2"}
              && IsSet(env, ApiKeyVar) && IsSet(env, Agent1VoiceVar) && IsSet(env, Agent2VoiceVar)
              && r.value.apiKey == env[ApiKeyVar] != ""
              && r.value.agents["agent1"].voiceId == env[Agent1VoiceVar] != ""
              && r.value.agents["agent2"].voiceId == env[Agent2VoiceVar] != ""
  {
    var missing := MissingEnvVars(env, RequiredEnvVars);
    if |missing| > 0 then
      Failure(MissingMessage(missing))
    else
      Success(Build(env))
  }

  /** The missing list is exactly the unset required variables, in declaration order. */
  lemma MissingRequiredInOrder(env: Env)
    ensures MissingEnvVars(env, RequiredEnvVars) ==
              (if IsSet(env, ApiKeyVar) then [] else [ApiKeyVar])
              + (if IsSet(env, Agent1VoiceVar) then [] else [Agent1VoiceVar])
              + (if IsSet(env, Agent2VoiceVar) then [] else [Agent2VoiceVar])
  {
    var rs := RequiredEnvVars;
    assert rs[1..] == [Agent1VoiceVar, Agent2VoiceVar];
    assert rs[1..][1..] == [Agent2VoiceVar];
    assert rs[1..][1..][1..] == [];
    assert MissingEnvVars(env, rs[1..][1..]) == if IsSet(env, Agent2VoiceVar) then [] else [Agent2VoiceVar];
    assert MissingEnvVars(env, rs[1..]) ==
             (if IsSet(env, Agent1VoiceVar) then [] else [Agent1VoiceVar])
             + MissingEnvVars(env, rs[1..][1..]);
  }

  /** With every variable unset the message lists all three names, comma separated. */
  lemma AllMissingMessage()
    ensures Load(map[]) == Failure(MissingMessage(RequiredEnvVars))
    ensures JsText.Join(RequiredEnvVars, ", ") == ApiKeyVar + ", " + Agent1VoiceVar + ", " + Agent2VoiceVar
  {
    MissingRequiredInOrder(map[]);
    var names := [ApiKeyVar, Agent1VoiceVar, Agent2VoiceVar];
    assert MissingEnvVars(map[], RequiredEnvVars) == names;
    assert names[1..] == [Agent1VoiceVar, Agent2VoiceVar];
    assert names[1..][1..] == [Agent2VoiceVar];
    assert JsText.Join(names[1..], ", ") == Agent1VoiceVar + ", " + Agent2VoiceVar;
    assert JsText.Join(names, ", ") == ApiKeyVar + ", " + Agent1VoiceVar + ", " + Agent2VoiceVar;
    assert Load(map[]) == Failure(MissingMessage(names));
  }

  /**
   * On success the defaults apply to every optional variable that is unset or
   * empty, and the registry holds exactly the two agents with their fixed
   * model ids and shared settings.
   */
  lemma LoadedConfigShape(env: Env)
    requires Load(env).Success?
    ensures var c := Load(env).value;
      && (c.port == if IsSet(env, "PORT") then EnvPort(env["PORT"]) else DefaultPort(9000))
      && (c.nodeEnv == if IsSet(env, "NODE_ENV") then env["NODE_ENV"] else "development")
      && (c.cors.origin == if IsSet(env, "CORS_ORIGIN") then env["CORS_ORIGIN"] else "*")
      && c.cors.methods == ["GET", "POST"]
      && c.agents.Keys == {"agent1", "agent2"}
      && c.agents["agent1"] == AgentProfile(env[Agent1VoiceVar], "v1", VoiceSettings(0.5, 0.8))
      && c.agents["agent2"] == AgentProfile(env[Agent2VoiceVar], "eleven_monolingual_v1", VoiceSettings(0.5, 0.8))
  {
  }
}
