/** Values the envelope prints and parses: JSON-like values, field names, 64-bit integers, text. */
module Values {

  datatype Option<+T> = None | Some(value: T)

  // ---- Go's 64-bit int ----

  const MIN_INT: int := -0x8000_0000_0000_0000
  const MAX_INT: int := 0x7fff_ffff_ffff_ffff

  type Int64 = n: int | MIN_INT <= n <= MAX_INT

  /** Two's-complement wrap-around of a 64-bit result. */
  function Wrap64(n: int): Int64 {
    if MIN_INT <= n <= MAX_INT then n else (n - MIN_INT) % 0x1_0000_0000_0000_0000 + MIN_INT
  }

  lemma WrapAbove(n: int)
    requires MAX_INT < n <= MAX_INT + 0x1_0000_0000_0000_0000
    ensures Wrap64(n) == n - 0x1_0000_0000_0000_0000
  {
  }

  /** It is n up to a multiple of 2^64, and there is only one such value in the range. */
  lemma WrapMeaning(n: int, m: Int64)
    ensures (Wrap64(n) - n) % 0x1_0000_0000_0000_0000 == 0
    ensures (m - n) % 0x1_0000_0000_0000_0000 == 0 ==> m == Wrap64(n)
  {
  }

  lemma MulGrows(q: int, b: int)
    requires b >= 1
    ensures q >= 0 ==> q * b >= q
    ensures q < 0 ==> q * b <= -b
  {
  }

  lemma DivBounds(a: int, b: int)
    requires a >= 0 && b > 0
    ensures 0 <= a / b <= a
  {
    MulGrows(a / b, b);
  }

  /** Go's integer division: the quotient is truncated toward zero. */
  function TruncDiv(a: int, b: int): (q: int)
    requires b > 0
    ensures a >= 0 ==> 0 <= q <= a && q == a / b
    ensures a < 0 ==> a <= q <= 0
  {
    if a >= 0 then DivBounds(a, b); a / b else DivBounds(-a, b); -(-a / b)
  }

  /** What is left over is smaller than the divisor and has the sign of the dividend. */
  lemma TruncMeaning(a: int, b: int)
    requires b > 0
    ensures var r := a - TruncDiv(a, b) * b;
            -b < r < b && (a >= 0 ==> r >= 0) && (a <= 0 ==> r <= 0)
  {
    assert a == (a / b) * b + a % b;
    assert -a == (-a / b) * b + (-a) % b;
    if a < 0 { assert TruncDiv(a, b) * b == -((-a / b) * b); }
  }

  // ---- Text ----

  /** The characters strings.TrimSpace removes. */
  const WHITE_SPACE :=
    "\t\n\U{0B}\U{0C}\r \U{85}\U{A0}\U{1680}\U{2000}\U{2001}\U{2002}\U{2003}"
    + "\U{2004}\U{2005}\U{2006}\U{2007}\U{2008}\U{2009}\U{200A}\U{2028}\U{2029}\U{202F}\U{205F}\U{3000}"

  predicate Among(c: char, table: string) {
    table != "" && (c == table[0] || Among(c, table[1..]))
  }

  /** strutil.IsEmpty: nothing is left once the white space is trimmed. */
  predicate IsEmpty(s: string)
    decreases |s|, 1
  {
    s == "" || Blank(s)
  }

  predicate Blank(s: string)
    requires s != ""
    decreases |s|, 0
  {
    Among(s[0], WHITE_SPACE) && IsEmpty(s[1..])
  }

  lemma {:induction false} NotAmong(c: char, table: string)
    requires c !in table
    ensures !Among(c, table)
    decreases |table|
  {
    if table != "" {
      NotAmong(c, table[1..]);
    }
  }

  lemma {:induction false} AmongIff(c: char, table: string)
    ensures Among(c, table) <==> c in table
    decreases |table|
  {
    if table != "" {
      AmongIff(c, table[1..]);
    }
  }

  /** A text is empty exactly if it has white space only. */
  lemma {:induction false} EmptyIff(s: string)
    ensures IsEmpty(s) <==> forall c :: c in s ==> c in WHITE_SPACE
    decreases |s|
  {
    if s != "" {
      AmongIff(s[0], WHITE_SPACE);
      EmptyIff(s[1..]);
      assert forall c :: c in s <==> c == s[0] || c in s[1..];
    }
  }

  lemma LetterVisible(c: char)
    requires 'A' <= c <= 'z'
    ensures c !in WHITE_SPACE
  {
  }

  /** A text that starts with a letter is not empty. */
  lemma LetterFirst(s: string)
    requires s != "" && 'A' <= s[0] <= 'z'
    ensures !IsEmpty(s)
  {
    LetterVisible(s[0]);
    NotAmong(s[0], WHITE_SPACE);
  }

  // ---- Field names ----

  /** A map key. Every name the envelope prints or parses has a constructor; any other string is Named. */
  datatype Key =
    | KStatusCode | KTotal | KMessage | KPath | KData | KDebug | KHeader | KMeta | KPagination
    | KCursor | KIssue | KLinks | KSignature | KReason
    | KCode | KText | KType | KDescription
    | KApiVersion | KRequestId | KLocale | KRequestedTime | KCustomFields | KDeltaCnt | KDeltaValue
    | KPage | KPerPage | KTotalPages | KTotalItems | KIsLast
    | KNext | KPrevious | KHasNext | KHasPrevious | KLimit
    | KId | KFingerprint
    | KHref | KMethod | KTitle | KTemplated | KName | KDeprecation | KProfile | KHreflang
    | KAlgorithm | KValue | KTimestamp | KHeaders
    | KCategory
    | KStatusOverride
    | Named(name: string)

  predicate BlankKey(k: Key) {
    k.Named? && IsEmpty(k.name)
  }

  // ---- Values ----

  /** digits * 10^-scale, the exact literal that json.Number keeps. */
  datatype Decimal = Decimal(digits: int, scale: nat)

  datatype Value =
    | Null
    | Bool(b: bool)
    | Num(d: Decimal)
    | Str(s: string)
    | Arr(items: seq<Value>)
    | Obj(fields: map<Key, Value>)
    | Raw(text: string)  // JSON text that is printed as it stands; only a printed payload is one
    | Handle(id: int)    // a func or a channel: json.Marshal and hashy both refuse it

  type Dict = map<Key, Value>

  /** The dynamic type and value stored in wrapper.data. */
  datatype Body =
    | Nil
    | Text(s: string)                 // string
    | TextPtr(s: string)              // *string
    | Flag(b: bool)
    | Integer(n: Int64)
    | Number(d: Decimal)              // json.Number
    | RawJSON(s: string)              // json.RawMessage
    | Bytes(s: string)                // []byte
    | Items(items: seq<Value>)        // a slice type that NormBody counts ([]any, []string, []int, ...)
    | Records(items: seq<Value>)      // any other slice type
    | Tree(fields: Dict)              // map: json.Marshal sorts its keys
    | Record(text: string, zero: bool) // struct, by the text json.Marshal makes of it (fields in declaration order);
                                      // zero when every field is
    | Opaque(id: int)                 // func or channel

  function Int(n: int): Value {
    Num(Decimal(n, 0))
  }

  predicate Encodable(v: Value) {
    match v
    case Arr(items) => forall i :: 0 <= i < |items| ==> Encodable(items[i])
    case Obj(fields) => forall k :: k in fields ==> Encodable(fields[k])
    case Raw(_) => false
    case Handle(_) => false
    case _ => true
  }

  predicate EncodableDict(m: Dict) {
    forall k :: k in m ==> Encodable(m[k])
  }

  function Put<T>(m: map<Key, T>, k: Key, v: Option<T>): map<Key, T> {
    if v.Some? then m[k := v.value] else m
  }

  function When<T>(present: bool, v: T): Option<T> {
    if present then Some(v) else None
  }
}
