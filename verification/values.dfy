/** The already-decoded PHP values an asserter inspects: `stdClass` objects
    with named fields, arrays with integer or string keys, and scalars. */
module Values {
  import opened Decimal

  /** A PHP array key. PHP stores a string key that is the canonical decimal
      form of a 64-bit integer as that integer. */
  datatype ArrayKey = IntKey(i: Int64) | StrKey(s: string)

  /** A decoded PHP value. Objects and arrays are unordered here: the asserter
      only asks whether a field or key is present and what it holds. */
  datatype Value =
    | Obj(fields: map<string, Value>)
    | Arr(entries: map<ArrayKey, Value>)
    | Str(s: string)
    | Int(i: Int64)
    | Bool(b: bool)
    | Null

  /** The key PHP actually looks up for `$array[$k]` and `array_key_exists`. */
  function Canon(k: ArrayKey): (r: ArrayKey)
    ensures k.IntKey? ==> r == k
    ensures r.StrKey? ==> r == k
    ensures r.IntKey? && k.StrKey? ==> IsCanonical(k.s) && Parse(k.s) == r.i
    ensures k.StrKey? && IsCanonical(k.s) && MinInt64 <= Parse(k.s) <= MaxInt64 ==> r.IntKey?
  {
    match k
    case IntKey(_) => k
    case StrKey(s) =>
      if IsCanonical(s) && MinInt64 <= Parse(s) <= MaxInt64 then IntKey(Parse(s)) else k
  }

  /** The text PHP produces for a key in `'[' . $index . ']'` and `%s`: a
      string key as given, an integer in canonical decimal. Used as a string
      key, the text names the same slot as the key itself. */
  function KeyText(k: ArrayKey): (r: string)
    ensures k.StrKey? ==> r == k.s
    ensures k.IntKey? ==> IsCanonical(r) && Parse(r) == k.i
    ensures Canon(StrKey(r)) == Canon(k)
  {
    match k
    case IntKey(i) => IntToString(i)
    case StrKey(s) => s
  }

  /** An integer key and its decimal string name the same array slot. */
  lemma CanonOfPrintedInt(i: Int64)
    ensures Canon(StrKey(IntToString(i))) == IntKey(i)
  {
  }

  /** Canonicalising a key that was already looked up changes nothing. */
  lemma CanonIdempotent(k: ArrayKey)
    ensures Canon(Canon(k)) == Canon(k)
  {
  }

  /** Two indexes reach the same slot exactly when they print the same: the
      `[index]` token and the missing-key message name the slot looked up. */
  lemma KeyTextNamesSlot(j: ArrayKey, k: ArrayKey)
    ensures Canon(j) == Canon(k) <==> KeyText(j) == KeyText(k)
  {
    if Canon(j) == Canon(k) {
      match (j, k)
      case (IntKey(a), IntKey(b)) =>
      case (IntKey(a), StrKey(t)) =>
        ParseRoundTrip(t);
      case (StrKey(s), IntKey(b)) =>
        ParseRoundTrip(s);
      case (StrKey(s), StrKey(t)) =>
        if Canon(j).IntKey? {
          ParseRoundTrip(s);
          ParseRoundTrip(t);
        }
    }
  }

  /** The values PHP converts to false: NULL, "", "0", 0, false and the empty
      array. */
  const FalsyValues: set<Value> := {Null, Str(""), Str("0"), Int(0), Bool(false), Arr(map[])}

  /** PHP's conversion of a value to boolean, as used by `if ($constraint)`:
      false exactly for the falsy values. */
  predicate Truthy(v: Value): (r: bool)
    ensures r <==> v !in FalsyValues
  {
    assert v.Arr? && |v.entries| == 0 ==> v.entries == map[];
    match v
    case Obj(_) => true
    case Arr(m) => |m| > 0
    case Str(s) => s != "" && s != "0"
    case Int(i) => i != 0
    case Bool(b) => b
    case Null => false
  }
}
