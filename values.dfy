/** The values of an already-parsed YAML configuration, the errors the
    configuration code raises, and Python's `str()` rendering of values as the
    writers put them into files. */
module Values {
  import opened Strings

  /** A scalar or list loaded from YAML. `Null` is Python's `None` (a YAML
      null or a missing key read with `dict.get`). Floating-point numbers are
      opaque: `Number` keeps the text `str()` gives for them. */
  datatype Value =
    | Null
    | Bool(b: bool)
    | Int(i: int)
    | Number(token: string)
    | Text(s: string)
    | List(items: seq<Value>)

  /** The exceptions of the source, as values. */
  datatype Error =
    | ExtensionMismatch(path: string, allowed: seq<string>)  // a bare TypeError; the payload is what log.error reports
    | KeyError(key: string)          // a mandatory key or section is absent
    | IndexError(index: nat)         // `v[i]` past the end of a list or string
    | NotSubscriptable(v: Value)     // `v[i]` on a value that is not a list or string
    | NoSplit(v: Value)              // `v.split(...)` on a value that is not a string
    | FormatError(v: Value)          // `'{:d}'.format(v)` on a value that is not an integer

  datatype Option<+T> = None | Some(value: T)

  datatype Result<+T> = Ok(value: T) | Err(error: Error) {
    predicate IsFailure() { Err? }
    function PropagateFailure<U>(): Result<U>
      requires Err?
    {
      Err(error)
    }
    function Extract(): T
      requires Ok?
    {
      value
    }
  }

  /** One subsystem of the configuration: parameter name to value. */
  type Section = map<string, Value>

  /** The parsed configuration: subsystem name to section. */
  type Config = map<string, Section>

  /** `parameters[section][key]`, raising KeyError on the first absent level. */
  function Lookup(cfg: Config, section: string, key: string): (r: Result<Value>)
    ensures r.Ok? <==> section in cfg && key in cfg[section]
    ensures r.Ok? ==> r.value == cfg[section][key]
    ensures section !in cfg ==> r == Err(KeyError(section))
    ensures section in cfg && key !in cfg[section] ==> r == Err(KeyError(key))
  {
    if section !in cfg then Err(KeyError(section))
    else if key !in cfg[section] then Err(KeyError(key))
    else Ok(cfg[section][key])
  }

  /** True when `parameters[section][key]` exists (the `try`/`except KeyError`
      guard of the optional fields). */
  predicate Has(cfg: Config, section: string, key: string)
  {
    section in cfg && key in cfg[section]
  }

  /** `section.get(key)`: the value, or `None` when the key is absent. */
  function Get(section: Section, key: string): (r: Value)
    ensures key in section ==> r == section[key]
    ensures key !in section ==> r == Null
  {
    if key in section then section[key] else Null
  }

  /** `v[i]` for a non-negative index: an element of a list, a one-character
      string of a string, an error otherwise. */
  function Index(v: Value, i: nat): (r: Result<Value>)
    ensures r.Ok? <==> (v.List? && i < |v.items|) || (v.Text? && i < |v.s|)
    ensures v.List? && i < |v.items| ==> r == Ok(v.items[i])
    ensures v.Text? && i < |v.s| ==> r == Ok(Text([v.s[i]]))
    ensures !v.List? && !v.Text? ==> r == Err(NotSubscriptable(v))
  {
    match v
    case List(items) => if i < |items| then Ok(items[i]) else Err(IndexError(i))
    case Text(s) => if i < |s| then Ok(Text([s[i]])) else Err(IndexError(i))
    case _ => Err(NotSubscriptable(v))
  }

  /** `sep.join(parts)`. */
  function Join(parts: seq<string>, sep: string): (r: string)
    ensures parts == [] ==> r == []
    ensures |parts| == 1 ==> r == parts[0]
  {
    if parts == [] then []
    else if |parts| == 1 then parts[0]
    else parts[0] + sep + Join(parts[1..], sep)
  }

  /** Python's `repr()` of a value (string escaping is not modelled). */
  function Repr(v: Value): string
    decreases v
  {
    match v
    case Null => "None"
    case Bool(b) => if b then "True" else "False"
    case Int(i) => IntToString(i)
    case Number(t) => t
    case Text(s) => "'" + s + "'"
    case List(items) =>
      "[" + Join(seq(|items|, k requires 0 <= k < |items| => Repr(items[k])), ", ") + "]"
  }

  /** Python's `str()` of a value, which is what `'{}'.format(v)` and
      f-strings write. */
  function Render(v: Value): (r: string)
    ensures v.Text? ==> r == v.s
    ensures !v.Text? ==> r == Repr(v)
  {
    if v.Text? then v.s else Repr(v)
  }

  /** `'{:d}'.format(v)`: integers (and booleans, which Python treats as
      integers) in decimal; anything else raises. */
  function FormatD(v: Value): (r: Result<string>)
    ensures r.Ok? <==> v.Int? || v.Bool?
    ensures v.Int? ==> r == Ok(IntToString(v.i))
    ensures v.Int? && v.i >= 0 ==> r.Ok? && AllDigits(r.value)
  {
    match v
    case Int(i) => Ok(IntToString(i))
    case Bool(b) => Ok(if b then "1" else "0")
    case _ => Err(FormatError(v))
  }
}
