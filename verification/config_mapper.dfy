/**
 * providerEnv (main.js:62-96): the environment block written to
 * `.claude/settings.json` for a provider, a model name, an API key and the
 * parsed additional configuration.
 */
module ConfigMapper {
  import opened Js
  import opened Providers

  const BaseUrlKey: string := "ANTHROPIC_BASE_URL"
  const AuthTokenKey: string := "ANTHROPIC_AUTH_TOKEN"
  const TimeoutKey: string := "API_TIMEOUT_MS"
  const TrafficKey: string := "CLAUDE_CODE_DISABLE_NONESSENTIAL_TRAFFIC"
  const ApiKeyKey: string := "ANTHROPIC_API_KEY"

  /** The timeout is written as a string, not a number. */
  const TimeoutMs: string := "3000000"

  /** The five model roles that all receive the one model name. */
  const ModelKey: string := "ANTHROPIC_MODEL"
  const SmallFastKey: string := "ANTHROPIC_SMALL_FAST_MODEL"
  const SonnetKey: string := "ANTHROPIC_DEFAULT_SONNET_MODEL"
  const OpusKey: string := "ANTHROPIC_DEFAULT_OPUS_MODEL"
  const HaikuKey: string := "ANTHROPIC_DEFAULT_HAIKU_MODEL"
  const RoleKeys: seq<string> := [ModelKey, SmallFastKey, SonnetKey, OpusKey, HaikuKey]

  /**
   * Object.assign writes each property with [[Set]]; for this key that runs
   * the Object.prototype accessor instead of creating a property, so it never
   * reaches the serialised env.
   */
  const ProtoKey: string := "__proto__"

  /**
   * The variable names have pairwise different lengths, which is how the
   * proofs tell them apart.
   */
  lemma KeyLengths()
    ensures |BaseUrlKey| == 18 && |AuthTokenKey| == 20 && |TimeoutKey| == 14
    ensures |TrafficKey| == 40 && |ApiKeyKey| == 17 && |ProtoKey| == 9
    ensures |ModelKey| == 15 && |SmallFastKey| == 26 && |SonnetKey| == 30
    ensures |OpusKey| == 28 && |HaikuKey| == 29
  {
  }

  /** The document `{ env }`. */
  datatype Settings = Settings(env: map<string, Value>)

  function BaseUrl(p: Provider): string
  {
    match p
    case Zai => "https://api.z.ai/api/anthropic"
    case Minimax => "https://api.minimax.io/anthropic"
    case OpenRouter => "https://openrouter.ai/api"
  }

  /** The provider branch: fixed variables per provider, none for any other name. */
  function ProviderDefaults(provider: string, apiKey: string): map<string, Value>
  {
    if provider == Name(Zai) then
      map[BaseUrlKey := Str(BaseUrl(Zai)), AuthTokenKey := Str(apiKey), TimeoutKey := Str(TimeoutMs)]
    else if provider == Name(Minimax) then
      map[BaseUrlKey := Str(BaseUrl(Minimax)), AuthTokenKey := Str(apiKey), TimeoutKey := Str(TimeoutMs),
          TrafficKey := Num(1)]
    else if provider == Name(OpenRouter) then
      map[BaseUrlKey := Str(BaseUrl(OpenRouter)), AuthTokenKey := Str(apiKey), ApiKeyKey := Str(""),
          TimeoutKey := Str(TimeoutMs)]
    else
      map[]
  }

  /** Each of `roles` set to the model name. */
  function RolesSet(modelName: string, roles: seq<string>): map<string, Value>
  {
    map k | k in roles :: Str(modelName)
  }

  /** Every model role set to the model name. */
  function RoleEnv(modelName: string): map<string, Value>
  {
    RolesSet(modelName, RoleKeys)
  }

  /** Setting one more role is a single map update. */
  lemma RolesSetSnoc(modelName: string, roles: seq<string>, k: string)
    ensures RolesSet(modelName, roles + [k]) == RolesSet(modelName, roles)[k := Str(modelName)]
  {
  }

  /** The properties Object.assign copies from the additional configuration (none unless it passes the object guard). */
  function Overrides(extra: Value): map<string, Value>
  {
    if !IsObjectLike(extra) then map[]
    else match extra
      case Obj(fields) => fields - {ProtoKey}
      case Arr(items) => IndexProps(items)
      case _ => map[]
  }

  /** The variables generated before the merge: the provider branch, then the roles. */
  function Generated(provider: string, modelName: string, apiKey: string): map<string, Value>
  {
    ProviderDefaults(provider, apiKey) + RoleEnv(modelName)
  }

  /** What providerEnv produces: the generated variables with the overrides written over them. */
  function EnvFor(provider: string, modelName: string, apiKey: string, extra: Value): map<string, Value>
  {
    Generated(provider, modelName, apiKey) + Overrides(extra)
  }

  /** `models.forEach(m => env[m] = modelName)`: every role written over `env`. */
  method AssignRoles(env: map<string, Value>, modelName: string) returns (r: map<string, Value>)
    ensures r == env + RoleEnv(modelName)
  {
    r := env;
    var i := 0;
    while i < |RoleKeys|
      invariant 0 <= i <= |RoleKeys|
      invariant r == env + RolesSet(modelName, RoleKeys[..i])
    {
      RolesSetSnoc(modelName, RoleKeys[..i], RoleKeys[i]);
      assert RoleKeys[..i + 1] == RoleKeys[..i] + [RoleKeys[i]];
      r := r[RoleKeys[i] := Str(modelName)];
      i := i + 1;
    }
    assert RoleKeys[..i] == RoleKeys;
  }

  /** providerEnv itself: the provider branch, the roles and the merge. */
  method ProviderEnv(provider: string, modelName: string, apiKey: string, extra: Value) returns (s: Settings)
    ensures s.env == EnvFor(provider, modelName, apiKey, extra)
  {
    var env := ProviderDefaults(provider, apiKey);
    env := AssignRoles(env, modelName);
    if IsObjectLike(extra) {
      env := env + Overrides(extra);
    }
    s := Settings(env);
  }

  /** The generated variables of a known provider, by name. */
  lemma GeneratedKeysOf(p: Provider, modelName: string, apiKey: string)
    ensures Generated(Name(p), modelName, apiKey).Keys
         == {BaseUrlKey, AuthTokenKey, TimeoutKey}
            + (if p == Minimax then {TrafficKey} else {})
            + (if p == OpenRouter then {ApiKeyKey} else {})
            + set k | k in RoleKeys
  {
    KeyLengths();
  }

  /** A name whose length differs from every role's is not a role. */
  lemma NotARole(k: string, modelName: string)
    requires |k| !in {15, 26, 30, 28, 29}
    ensures k !in RoleEnv(modelName)
  {
    KeyLengths();
  }

  /** The provider-specific values among the generated variables. */
  lemma GeneratedValuesOf(p: Provider, modelName: string, apiKey: string)
    ensures var gen := Generated(Name(p), modelName, apiKey);
      && gen[BaseUrlKey] == Str(BaseUrl(p))
      && gen[AuthTokenKey] == Str(apiKey)
      && gen[TimeoutKey] == Str("3000000")
      && (p == Minimax ==> gen[TrafficKey] == Num(1))
      && (p == OpenRouter ==> gen[ApiKeyKey] == Str(""))
  {
    KeyLengths();
    NotARole(BaseUrlKey, modelName);
    NotARole(AuthTokenKey, modelName);
    NotARole(TimeoutKey, modelName);
    NotARole(TrafficKey, modelName);
    NotARole(ApiKeyKey, modelName);
    var d := ProviderDefaults(Name(p), apiKey);
    match p {
      case Zai =>
        assert d == map[BaseUrlKey := Str(BaseUrl(Zai)), AuthTokenKey := Str(apiKey), TimeoutKey := Str(TimeoutMs)];
      case Minimax =>
        assert d == map[BaseUrlKey := Str(BaseUrl(Minimax)), AuthTokenKey := Str(apiKey), TimeoutKey := Str(TimeoutMs),
                        TrafficKey := Num(1)];
      case OpenRouter =>
        assert d == map[BaseUrlKey := Str(BaseUrl(OpenRouter)), AuthTokenKey := Str(apiKey), ApiKeyKey := Str(""),
                        TimeoutKey := Str(TimeoutMs)];
    }
  }

  /** Whatever the provider name, every role holds the model name before the merge. */
  lemma GeneratedRoles(provider: string, modelName: string, apiKey: string)
    ensures forall k :: k in RoleKeys ==> Generated(provider, modelName, apiKey)[k] == Str(modelName)
  {
  }

  /**
   * With nothing to merge, a known provider gets its base URL, the key as
   * token, the string timeout, its one extra flag if any, the five roles, and
   * no other variable.
   */
  lemma Defaults(p: Provider, modelName: string, apiKey: string, extra: Value)
    requires Overrides(extra) == map[]
    ensures var env := EnvFor(Name(p), modelName, apiKey, extra);
      && env.Keys == {BaseUrlKey, AuthTokenKey, TimeoutKey}
                     + (if p == Minimax then {TrafficKey} else {})
                     + (if p == OpenRouter then {ApiKeyKey} else {})
                     + set k | k in RoleKeys
      && env[BaseUrlKey] == Str(BaseUrl(p))
      && env[AuthTokenKey] == Str(apiKey)
      && env[TimeoutKey] == Str("3000000")
      && (p == Minimax ==> env[TrafficKey] == Num(1))
      && (p == OpenRouter ==> env[ApiKeyKey] == Str(""))
      && forall k :: k in RoleKeys ==> env[k] == Str(modelName)
  {
    assert EnvFor(Name(p), modelName, apiKey, extra) == Generated(Name(p), modelName, apiKey);
    GeneratedKeysOf(p, modelName, apiKey);
    GeneratedValuesOf(p, modelName, apiKey);
    GeneratedRoles(Name(p), modelName, apiKey);
  }

  /** A provider name outside the three gets the five roles and nothing else. */
  lemma UnknownProvider(provider: string, modelName: string, apiKey: string)
    requires forall p :: provider != Name(p)
    ensures EnvFor(provider, modelName, apiKey, Undefined) == RoleEnv(modelName)
    ensures EnvFor(provider, modelName, apiKey, Undefined).Keys == set k | k in RoleKeys
  {
    assert provider != Name(Zai) && provider != Name(Minimax) && provider != Name(OpenRouter);
  }

  /** A variable name as the generator writes them: it starts with a capital letter. */
  predicate IsCapitalised(k: string)
  {
    |k| > 0 && 'A' <= k[0] <= 'Z'
  }

  /** Every generated name is capitalised, so it is neither an array index nor `__proto__`. */
  lemma GeneratedCapitalised(provider: string, modelName: string, apiKey: string)
    ensures forall k :: k in Generated(provider, modelName, apiKey) ==> IsCapitalised(k)
  {
    assert IsCapitalised(BaseUrlKey) && IsCapitalised(AuthTokenKey) && IsCapitalised(TimeoutKey);
    assert IsCapitalised(TrafficKey) && IsCapitalised(ApiKeyKey);
    assert forall k :: k in RoleKeys ==> IsCapitalised(k);
  }

  /** Writing `ov` over `gen` when the two share no name. */
  lemma DisjointMerge(gen: map<string, Value>, ov: map<string, Value>)
    requires forall k :: k in gen ==> k !in ov
    ensures forall k :: k in gen ==> k in gen + ov && (gen + ov)[k] == gen[k]
  {
  }

  /**
   * Merging an object: every property except `__proto__` takes the value
   * given, even ANTHROPIC_AUTH_TOKEN or ANTHROPIC_BASE_URL; every generated
   * variable not named keeps its value; nothing else appears.
   */
  lemma ObjectOverride(provider: string, modelName: string, apiKey: string, fields: map<string, Value>)
    ensures var env := EnvFor(provider, modelName, apiKey, Obj(fields));
            var gen := Generated(provider, modelName, apiKey);
      && env.Keys == gen.Keys + (fields.Keys - {ProtoKey})
      && (forall k :: k in fields && k != ProtoKey ==> env[k] == fields[k])
      && (forall k :: k in gen && k !in fields ==> env[k] == gen[k])
      && ProtoKey !in env
  {
    var gen := Generated(provider, modelName, apiKey);
    assert EnvFor(provider, modelName, apiKey, Obj(fields)) == gen + (fields - {ProtoKey});
    GeneratedCapitalised(provider, modelName, apiKey);
    assert !IsCapitalised(ProtoKey);
  }

  /**
   * Merging an array (the object guard lets it through): element i appears
   * under the key "i", and every generated variable keeps its value, since
   * no generated name is an index.
   */
  lemma ArrayOverride(provider: string, modelName: string, apiKey: string, items: seq<Value>)
    ensures var env := EnvFor(provider, modelName, apiKey, Arr(items));
            var gen := Generated(provider, modelName, apiKey);
      && (forall i :: 0 <= i < |items| ==> IndexKey(i) in env && env[IndexKey(i)] == items[i])
      && (forall k :: k in gen ==> k in env && env[k] == gen[k])
      && (forall k :: k in env && k !in gen ==> AllDigits(k) && DecimalValue(k) < |items| && k == IndexKey(DecimalValue(k)))
  {
    var gen := Generated(provider, modelName, apiKey);
    var props := IndexProps(items);
    assert EnvFor(provider, modelName, apiKey, Arr(items)) == gen + props;
    GeneratedCapitalised(provider, modelName, apiKey);
    forall k | k in gen
      ensures k !in props
    {
      assert IsCapitalised(k);
    }
    DisjointMerge(gen, props);
  }

  /**
   * `{"ANTHROPIC_MODEL": "X"}` replaces that one role; the other four keep
   * the model name.
   */
  lemma ModelOverride(p: Provider, modelName: string, apiKey: string)
    ensures var env := EnvFor(Name(p), modelName, apiKey, Obj(map[ModelKey := Str("X")]));
      && env[ModelKey] == Str("X")
      && forall k :: k in RoleKeys[1..] ==> env[k] == Str(modelName)
  {
    KeyLengths();
    GeneratedRoles(Name(p), modelName, apiKey);
    assert forall k :: k in RoleKeys[1..] ==> k != ModelKey;
  }
}
