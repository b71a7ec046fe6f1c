/** The data payload: presence, casting for print, casting after parse (utilities.go, entry.go). */
module Bodies {
  import opened Values
  import opened Library

  /** wrapper.IsBodyPresent through common.IsEmptyValue. */
  predicate Present(b: Body) {
    match b
    case Nil => false
    case Text(s) => |s| > 0
    case TextPtr(_) => true
    case Flag(f) => f
    case Integer(n) => n != 0
    case Number(_) => true
    case RawJSON(s) => |s| > 0
    case Bytes(s) => |s| > 0
    case Items(items) => |items| > 0
    case Records(items) => |items| > 0
    case Tree(fields) => |fields| > 0
    case Record(_, zero) => !zero
    case Opaque(_) => true
  }

  /** castString. */
  function CastText(rt: Runtime, s: string): Body {
    if IsEmpty(s) then TextPtr(s)
    else
      var n := rt.normalize(s);
      if IsEmpty(n) then TextPtr(s)
      else if rt.decode(n).Some? then RawJSON(rt.compact(n))
      else Text(n)
  }

  /** safeCastValueSupervised: castValueBase, or the value itself. */
  function Cast(rt: Runtime, b: Body): Body {
    match b
    case Text(s) => CastText(rt, s)
    case TextPtr(s) => CastText(rt, s)
    case Number(d) => RawJSON(rt.encode(Num(d)))
    case RawJSON(s) => Text(s)
    case Bytes(s) => if rt.decode(s).Some? then RawJSON(rt.compact(s)) else Text(s)
    case _ => b
  }

  /** What json.Marshal prints for a cast value, if it can. */
  function Marshal(rt: Runtime, b: Body): Option<string> {
    match b
    case Nil => Some(rt.encode(Null))
    case Text(s) => Some(rt.encode(Str(s)))
    case TextPtr(s) => Some(rt.encode(Str(s)))
    case Flag(f) => Some(rt.encode(Bool(f)))
    case Integer(n) => Some(rt.encode(Int(n)))
    case Number(d) => Some(rt.encode(Num(d)))
    case RawJSON(s) => When(rt.decode(s).Some?, rt.compact(s))
    case Bytes(s) => Some(rt.encode(Str(s)))
    case Items(items) => When(Encodable(Arr(items)), rt.encode(Arr(items)))
    case Records(items) => When(Encodable(Arr(items)), rt.encode(Arr(items)))
    case Tree(fields) => When(Encodable(Obj(fields)), rt.encode(Obj(fields)))
    case Record(t, _) => When(rt.decode(t).Some?, rt.compact(t))
    case Opaque(_) => None
  }

  /** The value under "data". */
  function Printed(rt: Runtime, b: Body): Value {
    var t := Marshal(rt, Cast(rt, b));
    if t.Some? then Raw(t.value) else Handle(0)
  }

  lemma EncodedCompact(rt: Runtime, v: Value)
    requires Lawful(rt) && Encodable(v)
    ensures Compact(rt, rt.encode(v)) && rt.decode(rt.encode(v)) == Some(v)
  {
  }

  lemma CompactedCompact(rt: Runtime, s: string)
    requires Lawful(rt) && rt.decode(s).Some?
    ensures Compact(rt, rt.compact(s)) && rt.decode(rt.compact(s)) == rt.decode(s)
  {
  }

  lemma MarshalCompact(rt: Runtime, b: Body)
    requires Lawful(rt)
    ensures Marshal(rt, b).Some? ==> Compact(rt, Marshal(rt, b).value)
  {
    match b
    case Nil => EncodedCompact(rt, Null);
    case Text(s) => EncodedCompact(rt, Str(s));
    case TextPtr(s) => EncodedCompact(rt, Str(s));
    case Flag(f) => EncodedCompact(rt, Bool(f));
    case Integer(n) => EncodedCompact(rt, Int(n));
    case Number(d) => EncodedCompact(rt, Num(d));
    case RawJSON(s) => if rt.decode(s).Some? { CompactedCompact(rt, s); }
    case Bytes(s) => EncodedCompact(rt, Str(s));
    case Items(xs) => if Encodable(Arr(xs)) { EncodedCompact(rt, Arr(xs)); }
    case Records(xs) => if Encodable(Arr(xs)) { EncodedCompact(rt, Arr(xs)); }
    case Tree(m) => if Encodable(Obj(m)) { EncodedCompact(rt, Obj(m)); }
    case Record(t, _) => if rt.decode(t).Some? { CompactedCompact(rt, t); }
    case Opaque(_) =>
  }

  lemma PrintedLaid(rt: Runtime, b: Body)
    requires Lawful(rt)
    ensures Printed(rt, b).Handle? || (Printed(rt, b).Raw? && Compact(rt, Printed(rt, b).text))
  {
    MarshalCompact(rt, Cast(rt, b));
  }

  // ---- What a reader finds ----

  /** A reader of the printed payload finds the value v. */
  predicate ReadsAs(rt: Runtime, b: Body, v: Value) {
    Printed(rt, b).Raw? && rt.decode(Printed(rt, b).text) == Some(v)
  }

  /** Nil, false and 0 are not printed; other plain values read as themselves. */
  lemma PlainPayload(rt: Runtime, f: bool, n: Int64, d: Decimal)
    requires Lawful(rt)
    ensures !Present(Nil)
    ensures (Present(Flag(f)) <==> f) && ReadsAs(rt, Flag(f), Bool(f))
    ensures (Present(Integer(n)) <==> n != 0) && ReadsAs(rt, Integer(n), Num(Decimal(n, 0)))
    ensures Present(Number(d)) && ReadsAs(rt, Number(d), Num(d))
  {
    EncodedCompact(rt, Bool(f));
    EncodedCompact(rt, Int(n));
    EncodedCompact(rt, Num(d));
  }

  /** A slice is printed unless it is empty, and cannot be if it holds a func. */
  lemma SlicePayload(rt: Runtime, xs: seq<Value>, b: Body)
    requires Lawful(rt) && (b == Items(xs) || b == Records(xs))
    ensures Present(b) <==> xs != []
    ensures if Encodable(Arr(xs)) then ReadsAs(rt, b, Arr(xs)) else !Printed(rt, b).Raw?
  {
    if Encodable(Arr(xs)) { EncodedCompact(rt, Arr(xs)); }
  }

  lemma TreePayload(rt: Runtime, m: Dict)
    requires Lawful(rt)
    ensures Present(Tree(m)) <==> m != map[]
    ensures if EncodableDict(m) then ReadsAs(rt, Tree(m), Obj(m)) else !Printed(rt, Tree(m)).Raw?
  {
    if EncodableDict(m) { EncodedCompact(rt, Obj(m)); }
  }

  lemma TextCase(rt: Runtime, s: string, b: Body)
    requires Lawful(rt) && (b == Text(s) || b == TextPtr(s))
    ensures var n := rt.normalize(s);
            ReadsAs(rt, b, if IsEmpty(s) || IsEmpty(n) then Str(s)
                           else if rt.decode(n).Some? then rt.decode(n).value else Str(n))
  {
    var n := rt.normalize(s);
    assert rt.decode(rt.encode(Str(s))) == Some(Str(s)) && rt.decode(rt.encode(Str(n))) == Some(Str(n));
  }

  /**
   * A text that is JSON, or that NormalizeJSON makes JSON of, reads as that value; any other text as the normalized
   * text, or as itself if either is blank.
   */
  lemma TextPayload(rt: Runtime, s: string, b: Body, v: Value)
    requires Lawful(rt) && (b == Text(s) || b == TextPtr(s))
    ensures Present(b) <==> b.TextPtr? || s != ""
    ensures !IsEmpty(s) && rt.decode(rt.normalize(s)) == Some(v) ==> ReadsAs(rt, b, v)
    ensures !IsEmpty(s) && rt.decode(rt.normalize(s)).None? && !IsEmpty(rt.normalize(s)) ==>
              ReadsAs(rt, b, Str(rt.normalize(s)))
    ensures IsEmpty(s) || IsEmpty(rt.normalize(s)) ==> ReadsAs(rt, b, Str(s))
  {
    TextCase(rt, s, b);
  }

  /** Raw JSON is printed as a text; bytes are printed as JSON if they are JSON, and else as a text. */
  lemma BytesPayload(rt: Runtime, s: string, v: Value)
    requires Lawful(rt)
    ensures (Present(RawJSON(s)) <==> s != "") && (Present(Bytes(s)) <==> s != "")
    ensures ReadsAs(rt, RawJSON(s), Str(s))
    ensures rt.decode(s) == Some(v) ==> ReadsAs(rt, Bytes(s), v)
    ensures rt.decode(s).None? ==> ReadsAs(rt, Bytes(s), Str(s))
  {
    assert rt.decode(rt.encode(Str(s))) == Some(Str(s));
  }

  /** A struct is printed unless it is zero; a func or channel never can be. */
  lemma StructPayload(rt: Runtime, t: string, zero: bool, id: int)
    requires Lawful(rt)
    ensures Present(Record(t, zero)) <==> !zero
    ensures rt.decode(t).Some? ==> ReadsAs(rt, Record(t, zero), rt.decode(t).value)
    ensures Present(Opaque(id)) && !Printed(rt, Opaque(id)).Raw?
  {
  }

  // ---- Print and parse ----

  /** UnwrapJSON's treatment of "data": json.Number is kept, anything else goes through castValue. */
  function FromParsed(rt: Runtime, v: Value): Body {
    match v
    case Num(d) => Number(d)
    case Str(s) => CastText(rt, s)
    case Bool(b) => Flag(b)
    case Null => Nil
    case Arr(_) => Text(rt.encode(v))
    case Obj(_) => Text(rt.encode(v))
    case Raw(_) => Nil
    case Handle(_) => Nil
  }

  /**
   * The payloads that are printed again after a parse: not null, not false, and no text that NormalizeJSON would
   * repair or that is itself JSON with white space in it.
   */
  predicate Kept(rt: Runtime, v: Value) {
    match v
    case Null => false
    case Bool(b) => b
    case Str(s) =>
      IsEmpty(s) || IsEmpty(rt.normalize(s)) || (rt.normalize(s) == s && (rt.decode(s).Some? ==> rt.compact(s) == s))
    case _ => true
  }

  /** They are printed with the same bytes if they were in the layout of json.Marshal: object keys sorted. */
  predicate Stable(rt: Runtime, t: string)
    requires rt.decode(t).Some?
  {
    Kept(rt, rt.decode(t).value) && rt.encode(rt.decode(t).value) == t
  }

  lemma EncodedText(rt: Runtime, v: Value)
    requires Lawful(rt) && Encodable(v)
    ensures Present(Text(rt.encode(v))) && Printed(rt, Text(rt.encode(v))) == Raw(rt.encode(v))
  {
    assert rt.decode(rt.encode(v)) == Some(v);
  }

  lemma TextReprints(rt: Runtime, s: string)
    requires Lawful(rt)
    ensures var p := Printed(rt, CastText(rt, s));
            && Present(CastText(rt, s)) && p.Raw?
            && (Kept(rt, Str(s)) ==> p == Raw(rt.encode(Str(s))))
            && (!Kept(rt, Str(s)) ==> rt.decode(p.text) != Some(Str(s)))
  {
    assert rt.decode(rt.encode(Str(s))) == Some(Str(s));
    if !IsEmpty(s) && !IsEmpty(rt.normalize(s)) {
      var n := rt.normalize(s);
      if rt.decode(n).Some? {
        assert rt.decode(rt.encode(Str(rt.compact(n)))) == Some(Str(rt.compact(n)));
      } else {
        var m := rt.normalize(n);
        assert |m| <= |n| <= |s|;
        assert rt.decode(rt.encode(Str(n))) == Some(Str(n));
        assert rt.decode(rt.encode(Str(m))) == Some(Str(m));
      }
    }
  }

  /** A payload that is read is printed again, in the layout of json.Marshal, exactly when it is of the kept kind. */
  lemma PayloadReprints(rt: Runtime, v: Value)
    requires Lawful(rt) && Encodable(v)
    ensures Kept(rt, v) <==> Present(FromParsed(rt, v)) && Printed(rt, FromParsed(rt, v)) == Raw(rt.encode(v))
    ensures Kept(rt, v) <==> Present(FromParsed(rt, v)) && Meaning(rt, Some(Printed(rt, FromParsed(rt, v)))) == Some(v)
  {
    assert rt.decode(rt.encode(v)) == Some(v);
    match v
    case Arr(_) => EncodedText(rt, v);
    case Obj(_) => EncodedText(rt, v);
    case Str(s) => TextReprints(rt, s);
    case _ =>
  }

  /** The payload text t comes back with the same bytes exactly when it is stable. */
  lemma PayloadRoundTrip(rt: Runtime, t: string)
    requires Lawful(rt) && Compact(rt, t)
    ensures var b := FromParsed(rt, rt.decode(t).value);
            Present(b) && Printed(rt, b) == Raw(t) <==> Stable(rt, t)
  {
    PayloadReprints(rt, rt.decode(t).value);
  }
}
