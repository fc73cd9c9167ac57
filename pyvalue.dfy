/** Parsed configuration values and the few Python operations the macro
    engine applies to them.  The configuration is loaded with `json.load`,
    so every value is one of the JSON shapes below; Python's `None` and a
    JSON `null` are the same value, which is why a missing lookup result is
    passed on as `Null`.  Floating-point numbers are not modelled. */
module PyValue {

  datatype Json =
    | Null
    | Bool(b: bool)
    | Int(i: int)
    | Str(s: string)
    | Arr(items: seq<Json>)
    | Obj(fields: map<string, Json>)

  /** The Python exceptions the core can raise on its own (as opposed to
      failures of the foreign input-injection libraries). */
  datatype PyError = TypeError | KeyError | IndexError | ValueError

  datatype Option<T> = None | Some(value: T)

  datatype Result<T> = Ok(value: T) | Err(error: PyError)

  /** A lookup result as the Python code sees it: absence is `None`. */
  function OrNone(o: Option<Json>): Json
  {
    match o
    case None => Null
    case Some(x) => x
  }

  /** Python truthiness (`if not x`, `a and b`). */
  predicate Truthy(v: Json)
  {
    match v
    case Null => false
    case Bool(b) => b
    case Int(i) => i != 0
    case Str(s) => s != []
    case Arr(xs) => xs != []
    case Obj(m) => m != map[]
  }

  /** `v[key]` with a string key: only a dictionary holding the key answers. */
  function Subscript(v: Json, key: string): (r: Result<Json>)
    ensures r.Ok? <==> v.Obj? && key in v.fields
    ensures r.Ok? ==> r.value == v.fields[key]
  {
    match v
    case Obj(m) => if key in m then Ok(m[key]) else Err(KeyError)
    case _ => Err(TypeError)
  }

  /** `d.get(key, default)` on a dictionary: the entry, or `default` when
      the key is absent. */
  function DictGet(m: map<string, Json>, key: string, default: Json): Json
  {
    if key in m then m[key] else default
  }

  /** `v[i]` with a small non-negative integer index.  A string yields the
      one-character string; a dictionary (whose keys are strings) raises
      `KeyError`. */
  function Index(v: Json, i: nat): (r: Result<Json>)
    ensures r.Ok? <==> (v.Arr? && i < |v.items|) || (v.Str? && i < |v.s|)
    ensures r.Ok? && v.Arr? ==> r.value == v.items[i]
    ensures r.Ok? && v.Str? ==> r.value == Str([v.s[i]])
  {
    match v
    case Arr(xs) => if i < |xs| then Ok(xs[i]) else Err(IndexError)
    case Str(s) => if i < |s| then Ok(Str([s[i]])) else Err(IndexError)
    case Obj(_) => Err(KeyError)
    case _ => Err(TypeError)
  }

  /** `v[lo:hi]`: Python clamps both bounds to the length. */
  function Slice(v: Json, lo: nat, hi: nat): (r: Result<Json>)
    requires lo <= hi
    ensures r.Ok? <==> v.Arr? || v.Str?
    ensures r.Ok? && v.Arr? ==> r.value.Arr? && |r.value.items| == Clamp(hi, |v.items|) - Clamp(lo, |v.items|)
    ensures r.Ok? && v.Str? ==> r.value.Str? && |r.value.s| == Clamp(hi, |v.s|) - Clamp(lo, |v.s|)
  {
    match v
    case Arr(xs) => Ok(Arr(xs[Clamp(lo, |xs|)..Clamp(hi, |xs|)]))
    case Str(s) => Ok(Str(s[Clamp(lo, |s|)..Clamp(hi, |s|)]))
    case Obj(_) => Err(KeyError)
    case _ => Err(TypeError)
  }

  function Clamp(i: nat, n: nat): (c: nat)
    ensures c <= n && c <= i && (c == i || c == n)
  {
    if i <= n then i else n
  }

  /** The value as a Python number: `bool` is a subclass of `int` (`True`
      is 1, `False` is 0); every other non-float value makes arithmetic and
      comparisons raise. */
  function AsNumber(v: Json): (r: Result<int>)
    ensures r.Ok? <==> v.Int? || v.Bool?
  {
    match v
    case Int(i) => Ok(i)
    case Bool(b) => Ok(if b then 1 else 0)
    case _ => Err(TypeError)
  }

  /** `v >= 1`: raises exactly when `v` is not a number. */
  function AtLeastOne(v: Json): Result<bool>
  {
    match AsNumber(v)
    case Ok(n) => Ok(n >= 1)
    case Err(e) => Err(e)
  }

  /** The number of iterations of `for _ in range(v)`: none for a count
      below one; a non-number raises. */
  function RangeCount(v: Json): Result<nat>
  {
    match AsNumber(v)
    case Ok(n) => Ok(if n <= 0 then 0 else n)
    case Err(e) => Err(e)
  }

  /** `x in s` for strings: is `x` a contiguous part of `s`? */
  predicate IsSubstring(x: string, s: string)
  {
    exists i, j :: 0 <= i <= j <= |s| && s[i..j] == x
  }

  /** `key in v` for the string `key`: membership of keys for a dictionary,
      of elements for a list, of substrings for a string; a number, a
      boolean or `None` raises `TypeError`. */
  function Contains(v: Json, key: string): (r: Result<bool>)
    ensures r.Ok? <==> v.Obj? || v.Arr? || v.Str?
    ensures v.Obj? ==> r == Ok(key in v.fields)
    ensures v.Arr? ==> r == Ok(Str(key) in v.items)
  {
    match v
    case Obj(m) => Ok(key in m)
    case Arr(xs) => Ok(Str(key) in xs)
    case Str(s) => Ok(IsSubstring(key, s))
    case _ => Err(TypeError)
  }
}
