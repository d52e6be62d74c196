/** The closed set of backends, `['minimax', 'zai', 'openrouter']` in main.js. */
module Providers {
  import opened Wrappers
  import opened Js

  datatype Provider = Zai | Minimax | OpenRouter

  /** The identifier the UI sends and the credential store uses as key. */
  function Name(p: Provider): string
  {
    match p
    case Zai => "zai"
    case Minimax => "minimax"
    case OpenRouter => "openrouter"
  }

  /** `['minimax', 'zai', 'openrouter'].includes(v)`, returning the provider it names. */
  function FromValue(v: Value): (r: Option<Provider>)
    ensures r.Some? ==> v == Str(Name(r.value))
    ensures r.None? ==> forall p :: v != Str(Name(p))
  {
    if v == Str("minimax") then Some(Minimax)
    else if v == Str("zai") then Some(Zai)
    else if v == Str("openrouter") then Some(OpenRouter)
    else None
  }
}
