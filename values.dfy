/**
 * Values as the Flask configuration store hands them to the extension.
 * Python does no type checking on configuration entries (a port may be a
 * string, a TLS flag any object), so the model keeps them dynamically typed
 * and interprets them with Python's truthiness rule where the source tests
 * them with a bare `if`.
 */
module Values {

  datatype Option<T> = None | Some(value: T)

  /**
   * A Python object as it can appear in `app.config` (floats are not
   * modelled). `VBytes(text)` is the `bytes` object `text.encode("utf-8")`,
   * kept as the text it encodes.
   */
  datatype Value =
    | VNone
    | VBool(b: bool)
    | VInt(i: int)
    | VStr(s: string)
    | VBytes(text: string)
    | VList(items: seq<Value>)

  /** The Flask `app.config` object, reduced to its key/value contents. */
  type AppConfig = map<string, Value>

  /** Python's `bool(v)`: None, False, 0 and empty containers are false. */
  predicate Truthy(v: Value)
  {
    match v
    case VNone => false
    case VBool(b) => b
    case VInt(i) => i != 0
    case VStr(s) => |s| > 0
    case VBytes(text) => |text| > 0
    case VList(items) => |items| > 0
  }

  /** `config.get(key, default)`. */
  function Get(config: AppConfig, key: string, default: Value): (r: Value)
    ensures key in config ==> r == config[key]
    ensures key !in config ==> r == default
  {
    if key in config then config[key] else default
  }

  /** `v.encode("utf-8")` when `v` is a `str`, and `v` itself otherwise. */
  function EncodeText(v: Value): (r: Value)
    ensures !r.VStr?
    ensures v.VStr? ==> r == VBytes(v.s) && Truthy(r) == Truthy(v)
    ensures !v.VStr? ==> r == v
  {
    if v.VStr? then VBytes(v.s) else v
  }

  predicate IsUpper(c: char)
  {
    'A' <= c <= 'Z'
  }

  function LowerChar(c: char): (r: char)
    ensures !IsUpper(r)
    ensures !IsUpper(c) ==> r == c
    ensures IsUpper(c) ==> r as int == c as int + 32
  {
    if IsUpper(c) then (c as int + 32) as char else c
  }

  /** `str.lower()`, restricted to the ASCII letters. */
  function Lower(s: string): (r: string)
    ensures |r| == |s|
    ensures forall i :: 0 <= i < |r| ==> !IsUpper(r[i])
    ensures forall i :: 0 <= i < |s| && !IsUpper(s[i]) ==> r[i] == s[i]
    ensures (forall i :: 0 <= i < |s| ==> !IsUpper(s[i])) ==> r == s
    ensures forall i :: 0 <= i < |s| ==> r[i] == LowerChar(s[i])
  {
    if s == [] then [] else [LowerChar(s[0])] + Lower(s[1..])
  }
}
