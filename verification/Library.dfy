/** The standard-library and helper-package calls the envelope makes, as a record of functions. */
module Library {
  import opened Values

  /** A time.Time; 0 is the zero time. */
  type Instant = int

  datatype Runtime = Runtime(
    decode: string -> Option<Value>,        // encoding/json with UseNumber, one complete JSON text
    encode: Value -> string,                // json.Marshal of an encodable value: map keys sorted, no white space
    compact: string -> string,              // a JSON text without its white space, its layout kept otherwise
    embed: (Dict, string) -> string,        // json.Marshal of a map whose "data" is that JSON text
    normalize: string -> string,            // the candidate text encoding.NormalizeJSON returns
    strip: string -> string,                // encoding.Spec
    formatTime: Instant -> string,
    parseTime: string -> Instant,           // time.Parse(RFC3339) with the conv.TimeOrDefault fallback
    statusText: int -> string,              // http.StatusText
    overrideNote: int -> string,            // text of the status_code_override debug entry
    noMessage: int -> string,               // "HTTP %d error with no message"
    floatToInt: Decimal -> Option<Int64>,   // json.Number.Float64 and the conversion to int, where Int64 fails
    toFloat: Decimal -> Option<Decimal>,    // json.Number.Float64, as the shortest literal of the result
    reasonCategory: string -> Option<string>, // the ReasonCodes table
    digest: Value -> int,                   // hashy's digest of a map or value
    bodyDigest: Body -> int                 // hashy's digest of a payload
  )

  /** A text that json.Marshal copies as it stands. */
  predicate Compact(rt: Runtime, t: string) {
    rt.decode(t).Some? && rt.compact(t) == t
  }

  /** A map printed around a payload text reads back as both, and shows that text. */
  ghost predicate EmbedLaw(rt: Runtime) {
    && (forall m: Dict, t: string :: EncodableDict(m) && KData !in m && Compact(rt, t) ==>
          rt.decode(rt.embed(m, t)) == Some(Obj(m[KData := rt.decode(t).value])))
    && (forall m: Dict, t: string, m': Dict, t': string ::
          (&& EncodableDict(m) && KData !in m && Compact(rt, t) && EncodableDict(m') && KData !in m' && Compact(rt, t')
           && rt.embed(m, t) == rt.embed(m', t')) ==> t == t')
  }

  /** What the model assumes of encoding/json and encoding.NormalizeJSON. */
  ghost predicate Lawful(rt: Runtime) {
    && (forall v: Value :: Encodable(v) ==>
          rt.decode(rt.encode(v)) == Some(v) && rt.compact(rt.encode(v)) == rt.encode(v))
    && (forall s: string :: rt.decode(s).Some? ==>
          Encodable(rt.decode(s).value) && !IsEmpty(s) && rt.normalize(s) == s && rt.strip(s) == s)
    && (forall s: string :: rt.decode(s).Some? && rt.decode(s).value.Str? ==> |rt.decode(s).value.s| < |s|)
    && (forall s: string :: rt.normalize(s) == s || |rt.normalize(s)| < |s|)
    && (forall s: string :: rt.decode(s).Some? ==>
          rt.decode(rt.compact(s)) == rt.decode(s) && rt.compact(rt.compact(s)) == rt.compact(s))
    && EmbedLaw(rt)
  }

  // ---- The text of an envelope ----

  /** json.Marshal accepts the map: only its payload may be a text. */
  predicate EncodableTop(m: Dict) {
    forall k :: k in m ==> Encodable(m[k]) || (k == KData && m[k].Raw?)
  }

  /** The payload of a rendered map is a compact text, or something that cannot be encoded. */
  predicate Laid(rt: Runtime, m: Dict) {
    KData in m ==> if m[KData].Raw? then Compact(rt, m[KData].text) else m[KData].Handle?
  }

  /** encoding.JSON of a map: the empty text when json.Marshal fails. */
  function JsonText(rt: Runtime, m: Dict): string {
    if !EncodableTop(m) then ""
    else if KData in m && m[KData].Raw? then rt.embed(m - {KData}, m[KData].text)
    else rt.encode(Obj(m))
  }

  /** The value a printed cell reads back as. */
  function Meaning(rt: Runtime, v: Option<Value>): Option<Value> {
    if v.Some? && v.value.Raw? && rt.decode(v.value.text).Some? then rt.decode(v.value.text) else v
  }

  /** The map a printed map reads back as. */
  function ReadBack(rt: Runtime, m: Dict): Dict {
    if KData in m && m[KData].Raw? && rt.decode(m[KData].text).Some?
    then m[KData := rt.decode(m[KData].text).value]
    else m
  }

  lemma EmbedReads(rt: Runtime, m: Dict)
    requires EmbedLaw(rt) && EncodableTop(m) && KData in m && m[KData].Raw? && Compact(rt, m[KData].text)
    ensures rt.decode(rt.embed(m - {KData}, m[KData].text)) == Some(Obj(ReadBack(rt, m)))
  {
    assert (m - {KData})[KData := rt.decode(m[KData].text).value] == ReadBack(rt, m);
  }

  lemma EncodeReads(rt: Runtime, m: Dict)
    requires Lawful(rt) && EncodableTop(m) && (KData in m ==> !m[KData].Raw?)
    ensures rt.decode(rt.encode(Obj(m))) == Some(Obj(m))
  {
    assert Encodable(Obj(m));
  }

  lemma JsonReads(rt: Runtime, m: Dict)
    requires Lawful(rt) && Laid(rt, m)
    ensures JsonText(rt, m) == "" <==> !EncodableTop(m)
    ensures EncodableTop(m) ==> rt.decode(JsonText(rt, m)) == Some(Obj(ReadBack(rt, m)))
  {
    if EncodableTop(m) {
      if KData in m && m[KData].Raw? {
        EmbedReads(rt, m);
      } else {
        EncodeReads(rt, m);
      }
    }
  }

  lemma EmbedInjective(rt: Runtime, m: Dict, t: string, m': Dict, t': string)
    requires EmbedLaw(rt) && EncodableDict(m) && KData !in m && Compact(rt, t)
    requires EncodableDict(m') && KData !in m' && Compact(rt, t')
    requires rt.embed(m, t) == rt.embed(m', t')
    ensures t == t'
  {
  }

  lemma Restored(rt: Runtime, m: Dict)
    requires KData in m && m[KData].Raw?
    ensures ReadBack(rt, m)[KData := m[KData]] == m
  {
  }

  lemma SameReadBack(rt: Runtime, a: Dict, b: Dict)
    requires EmbedLaw(rt) && Laid(rt, a) && Laid(rt, b) && EncodableTop(a) && EncodableTop(b)
    requires JsonText(rt, a) == JsonText(rt, b) && ReadBack(rt, a) == ReadBack(rt, b)
    ensures a == b
  {
    assert a.Keys == ReadBack(rt, a).Keys == ReadBack(rt, b).Keys == b.Keys;
    if KData in a {
      EmbedInjective(rt, a - {KData}, a[KData].text, b - {KData}, b[KData].text);
      Restored(rt, a);
      Restored(rt, b);
    }
  }

  /** Two maps print the same text exactly when they are equal, payload layout included, or neither can be encoded. */
  lemma TextsAgree(rt: Runtime, a: Dict, b: Dict)
    requires Lawful(rt) && Laid(rt, a) && Laid(rt, b)
    ensures JsonText(rt, a) == JsonText(rt, b) <==> a == b || (!EncodableTop(a) && !EncodableTop(b))
  {
    JsonReads(rt, a);
    JsonReads(rt, b);
    if EncodableTop(a) && EncodableTop(b) && JsonText(rt, a) == JsonText(rt, b) {
      SameReadBack(rt, a, b);
    }
  }
}
