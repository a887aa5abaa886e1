/**
  Generation parameters: a Python dict from option name to value, built per
  call as `dict(defaults, **kwargs)` and, for two adapters, with a generic
  `stop` list folded into the backend's own stop-sequence option.
 */
module GenerationParams {
  import opened Wrappers
  import opened Exceptions

  /** Option values.  Numbers are reals; Python's `True`/`False` compare and
      add as 1 and 0. */
  datatype ParamValue =
    | Num(x: real)
    | Flag(b: bool)
    | Text(s: string)
    | TextList(items: seq<string>)

  type Params = map<string, ParamValue>

  /** The numeric value Python sees in `v` (booleans are 0 and 1). */
  function AsNumber(v: ParamValue): (r: Option<real>)
    ensures r.Some? <==> v.Num? || v.Flag?
  {
    match v
    case Num(x) => Some(x)
    case Flag(b) => Some(if b then 1.0 else 0.0)
    case _ => None
  }

  /** Python's `v == x` for a number `x`. */
  predicate NumEquals(v: ParamValue, x: real)
  {
    AsNumber(v) == Some(x)
  }

  /** `dict(defaults, **overrides)`: every caller key replaces the default. */
  function Overlay(defaults: Params, overrides: Params): (p: Params)
    ensures p.Keys == defaults.Keys + overrides.Keys
    ensures forall k :: k in overrides ==> p[k] == overrides[k]
    ensures forall k :: k in defaults && k !in overrides ==> p[k] == defaults[k]
  {
    defaults + overrides
  }

  /** Python's `a + b` on option values: lists and strings concatenate,
      numbers add, anything else raises TypeError. */
  function PyAdd(a: ParamValue, b: ParamValue): (r: Result<ParamValue, Error>)
    ensures a.TextList? && b.TextList? ==> r == Ok(TextList(a.items + b.items))
    ensures r.Ok? <==> ((a.TextList? && b.TextList?) || (a.Text? && b.Text?)
                      || (AsNumber(a).Some? && AsNumber(b).Some?))
  {
    if a.TextList? && b.TextList? then Ok(TextList(a.items + b.items))
    else if a.Text? && b.Text? then Ok(Text(a.s + b.s))
    else if AsNumber(a).Some? && AsNumber(b).Some? then Ok(Num(AsNumber(a).value + AsNumber(b).value))
    else Err(TypeError("unsupported operand type(s) for +"))
  }

  const STOP: string := "stop"

  /** `if "stop" in params: params[native] = params[native] + params["stop"];
      del params["stop"]` -- a new list is built, so no list held by the
      defaults is changed. */
  function MergeStop(params: Params, native: string): (r: Result<Params, Error>)
    requires native != STOP
    ensures STOP !in params ==> r == Ok(params)
    ensures STOP in params && native !in params ==> r == Err(KeyError(native))
    ensures STOP in params && native in params ==>
      (r.Ok? <==> PyAdd(params[native], params[STOP]).Ok?)
    ensures STOP in params && r.Ok? ==>
      && r.value.Keys == params.Keys - {STOP}
      && r.value[native] == PyAdd(params[native], params[STOP]).value
      && (forall k :: k in r.value && k != native ==> r.value[k] == params[k])
  {
    if STOP !in params then Ok(params)
    else if native !in params then Err(KeyError(native))
    else
      match PyAdd(params[native], params[STOP])
      case Err(e) => Err(e)
      case Ok(merged) => Ok((params - {STOP})[native := merged])
  }
}
