/**
  The part of PHP's value semantics that the plugin's guards rely on: `empty()`,
  conversion to bool, and reading a key of whatever `get_option` returned.
 */
module PhpValues {

  /** A PHP value. Arrays are keyed by strings, which is all the settings record
      uses; objects and resources do not occur in the plugin's settings. */
  datatype PhpValue =
    | Null
    | Bool(b: bool)
    | Int(i: int)
    | Float(f: real)
    | Str(s: string)
    | Arr(entries: map<string, PhpValue>)

  /** The values PHP's `empty()` calls empty. */
  const EMPTY_VALUES := {Null, Bool(false), Int(0), Float(0.0), Str(""), Str("0"), Arr(map[])}

  /** PHP `empty()` of a value that exists: null, false, 0, 0.0, "", "0" and the
      empty array are empty; everything else is not. */
  predicate IsEmpty(v: PhpValue)
    ensures IsEmpty(v) <==> v in EMPTY_VALUES
  {
    match v
    case Null => true
    case Bool(b) => !b
    case Int(i) => i == 0
    case Float(f) => f == 0.0
    case Str(s) => s == "" || s == "0"
    case Arr(m) => m == map[]
  }

  /** PHP's conversion to bool, as in `if ($v)`: exactly the values that are not empty. */
  predicate Truthy(v: PhpValue) {
    !IsEmpty(v)
  }

  /** `$v[$key]` evaluated inside `empty()`: an array yields the entry, or null when
      the key is missing; any other value (the `false` that get_option returns for
      a missing option, an empty string, a number) yields null for the
      non-numeric keys the plugin uses. */
  function Lookup(v: PhpValue, key: string): (r: PhpValue)
    ensures !v.Arr? ==> r == Null
    ensures v.Arr? && key !in v.entries ==> r == Null
    ensures v.Arr? && key in v.entries ==> r == v.entries[key]
  {
    if v.Arr? && key in v.entries then v.entries[key] else Null
  }
}
