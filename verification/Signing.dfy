/** signature.go and the sign/verify calls of replify.go: what is signed, and when it verifies. */
module Signing {
  import opened Values
  import opened Library
  import opened Parts
  import Bodies
  import opened ErrorChain
  import opened Envelope
  import opened RenderCache
  import opened Unwrap
  import opened Wrappers

  datatype Config = Config(secretKey: string, algorithm: string, headersToSign: seq<string>, maxAge: Int64,
                           includeTimestamp: bool, canonicalize: bool)

  /** time.Now(): whole seconds since 1970 and the nanoseconds on top. */
  datatype Clock = Clock(seconds: Int64, nanos: nat)

  /** HMAC with its base64 text, the rendered timestamp suffix, and the decoder's error for a text. */
  datatype Crypto = Crypto(
    mac: (string, string, string) -> string,  // algorithm, secret key, payload
    stamp: Int64 -> string,
    decodeError: string -> Err
  )

  /** The code is never blank, and under one key different payloads have different codes. */
  ghost predicate Discriminating(c: Crypto) {
    && (forall a: string, k: string, p: string :: !IsEmpty(c.mac(a, k, p)))
    && (forall a: string, k: string, p: string, q: string :: c.mac(a, k, p) == c.mac(a, k, q) ==> p == q)
  }

  const SUPPORTED: seq<string> :=
    ["HMAC-SHA256", "HMAC-SHA224", "HMAC-SHA512", "HMAC-SHA384", "HMAC-SHA512/256", "HMAC-SHA1", "HMAC-MD5"]

  predicate OneOf(a: string, table: seq<string>) {
    table != [] && (a == table[0] || OneOf(a, table[1..]))
  }

  predicate Complete(config: Option<Config>) {
    && config.Some? && !IsEmpty(config.value.algorithm) && !IsEmpty(config.value.secretKey)
    && OneOf(config.value.algorithm, SUPPORTED)
  }

  // ---- GenerateSignature and VerifySignature on bytes ----

  /** canonicalJSON, when the configuration asks for it. */
  function Canonical(rt: Runtime, config: Config, body: string): Option<string> {
    if !config.canonicalize then Some(body)
    else if rt.decode(body).Some? then Some(rt.encode(rt.decode(body).value))
    else None
  }

  function Payload(c: Crypto, body: string, ts: Int64): string {
    body + (if ts > 0 then c.stamp(ts) else "")
  }

  const BAD_REQUEST := Header(400, "Bad Request", "Client Error", "")

  datatype Generated = Signed(signature: Signature) | Refused(header: Header, message: string, cause: Option<Err>)

  function Generate(rt: Runtime, c: Crypto, config: Option<Config>, body: string, now: Clock): Generated {
    if config.None? then Refused(BAD_REQUEST, "signature configuration is missing", None)
    else
      var f := config.value;
      if IsEmpty(f.algorithm) then Refused(BAD_REQUEST, "signature algorithm is missing", None)
      else if IsEmpty(f.secretKey) then Refused(BAD_REQUEST, "signature secret key is missing", None)
      else if !OneOf(f.algorithm, SUPPORTED) then
        Refused(BAD_REQUEST, "unsupported signature algorithm: " + f.algorithm, None)
      else if Canonical(rt, f, body).None? then
        Refused(INTERNAL_SERVER_ERROR, "cannot canonicalize JSON while decoding", Some(c.decodeError(body)))
      else
        var ts := if f.includeTimestamp && now.seconds > 0 then now.seconds else 0;  // WithTimeUnix ignores the rest
        Signed(Signature(f.algorithm, c.mac(f.algorithm, f.secretKey, Payload(c, Canonical(rt, f, body).value, ts)),
                         ts, map[]))
  }

  /** The Unix second of Go's zero time. */
  const ZERO_TIME: Int64 := -62135596800

  /** IsExpiredUnix: no time remains of the maximum age; without a maximum age that is always so. */
  predicate Expired(f: Config, ts: Int64, now: Clock) {
    f.maxAge <= 0 || ts == ZERO_TIME || (now.seconds - ts) * 1_000_000_000 + now.nanos >= f.maxAge
  }

  predicate TooOld(f: Config, ts: Int64, now: Clock) {
    f.includeTimestamp && ts != 0 && Expired(f, ts, now)
  }

  predicate Accepts(rt: Runtime, c: Crypto, config: Option<Config>, body: string, g: Signature, now: Clock) {
    && Complete(config)
    && (var f := config.value;
        && f.headersToSign == []
        && !IsEmpty(g.value)
        && (!IsEmpty(g.algorithm) ==> g.algorithm == f.algorithm)
        && !TooOld(f, g.timestamp, now)
        && Canonical(rt, f, body).Some?
        && (var ts := if f.includeTimestamp then g.timestamp else 0;
            c.mac(f.algorithm, f.secretKey, Payload(c, Canonical(rt, f, body).value, ts)) == g.value))
  }

  // ---- ApplySignature and VerifySignature on a wrapper ----

  /** The text that is signed for a rendered map: "signature" is left out whatever the caller lists. */
  function SignedText(rt: Runtime, m: Dict, ignored: seq<Key>): string {
    JsonText(rt, Without(m, ignored + [KSignature]))
  }

  function Refuse(s: State, r: Generated, id: nat): State
    requires r.Refused?
  {
    s.(header := Some(r.header), statusCode := r.header.code, message := r.message,
       errors := if r.cause.Some? then Construct(Ack, r.cause, id) else s.errors)
  }

  function Apply(rt: Runtime, c: Crypto, x: Snapshot, config: Option<Config>, ignored: seq<Key>, now: Clock,
                 seed: Seed, id: nat): Snapshot {
    if IsError(x.st) then x
    else
      var (y, m) := Render(rt, x, seed);
      match Generate(rt, c, config, SignedText(rt, m, ignored), now)
      case Signed(g) => Uncached(y.st.(signature := Some(g)))
      case Refused(h, t, e) => y.(st := Refuse(y.st, Refused(h, t, e), id))
  }

  function Verify(rt: Runtime, c: Crypto, x: Snapshot, config: Option<Config>, ignored: seq<Key>, now: Clock,
                  seed: Seed): (Snapshot, bool) {
    if x.st.errors.Some? || x.st.signature.None? then (x, false)
    else
      var (y, m) := Render(rt, x, seed);
      (y, Accepts(rt, c, config, SignedText(rt, m, ignored), x.st.signature.value, now))
  }

  method Attach(w: Wrapper, g: Signature)
    modifies w
    ensures w.Snap() == Uncached(old(w.Fields()).(signature := Some(g)))
  {
    w.PlaceSignature(g);
    w.ResetCache();
  }

  method Reject(w: Wrapper, rt: Runtime, g: Generated, id: nat)
    requires g.Refused?
    modifies w
    ensures w.Snap() == old(w.Snap()).(st := Refuse(old(w.Fields()), g, id))
  {
    w.SetHeader(rt, Some(g.header));
    w.SetMessage(rt, g.message);
    if g.cause.Some? {
      w.SetErrors(rt, Construct(Ack, g.cause, id));
    }
  }

  method ApplySignature(w: Wrapper, rt: Runtime, c: Crypto, config: Option<Config>, ignored: seq<Key>, now: Clock,
                        seed: Seed, id: nat)
    modifies w, w.debug
    ensures w.Snap() == Apply(rt, c, old(w.Snap()), config, ignored, now, seed, id)
  {
    if w.errors.Some? || IsFailure(w.statusCode) {
      return;
    }
    var m := w.RespondIgnoring(rt, seed, ignored + [KSignature]);
    var g := Generate(rt, c, config, JsonText(rt, m), now);
    if g.Refused? {
      Reject(w, rt, g, id);
      return;
    }
    Attach(w, g.signature);
  }

  method VerifySignature(w: Wrapper, rt: Runtime, c: Crypto, config: Option<Config>, ignored: seq<Key>, now: Clock,
                         seed: Seed) returns (ok: bool)
    modifies w, w.debug
    ensures (w.Snap(), ok) == Verify(rt, c, old(w.Snap()), config, ignored, now, seed)
  {
    if w.errors.Some? || w.signature.None? {
      return false;
    }
    var g := w.SignatureNow().value;
    var m := w.RespondIgnoring(rt, seed, ignored + [KSignature]);
    ok := Accepts(rt, c, config, JsonText(rt, m), g, now);
  }

  // ---- A signature accepts the text it was made for, and no other ----

  lemma SuffixCancels(a: string, b: string, s: string)
    requires a + s == b + s
    ensures a == b
  {
    assert |a| == |b|;
    assert a == (a + s)[..|a|];
    assert b == (b + s)[..|b|];
  }

  /** Text as JSON prints it: a JSON text, or the empty text of a failed encoding. */
  ghost predicate Printable(rt: Runtime, text: string) {
    text == "" || rt.decode(text).Some?
  }

  lemma GenerateIff(rt: Runtime, c: Crypto, config: Option<Config>, text: string, now: Clock)
    requires Lawful(rt) && Printable(rt, text)
    ensures Generate(rt, c, config, text, now).Signed? <==>
            Complete(config) && (config.value.canonicalize ==> text != "")
  {
  }

  /** The two texts are the same for the signature. */
  predicate Alike(rt: Runtime, f: Config, text: string, text': string) {
    Canonical(rt, f, text) == Canonical(rt, f, text')
  }

  /** A signature accepts exactly the texts that are signed alike, while the configuration and its age allow it. */
  lemma AcceptsIff(rt: Runtime, c: Crypto, config: Option<Config>, text: string, text': string, now: Clock,
                   later: Clock)
    requires Discriminating(c) && Generate(rt, c, config, text, now).Signed?
    ensures var g := Generate(rt, c, config, text, now).signature;
            Accepts(rt, c, config, text', g, later) <==>
            && Alike(rt, config.value, text', text)
            && config.value.headersToSign == [] && !TooOld(config.value, g.timestamp, later)
  {
    var f := config.value;
    var g := Generate(rt, c, config, text, now).signature;
    if Accepts(rt, c, config, text', g, later) {
      var s := if g.timestamp > 0 then c.stamp(g.timestamp) else "";
      assert Canonical(rt, f, text).value + s == Canonical(rt, f, text').value + s;
      SuffixCancels(Canonical(rt, f, text).value, Canonical(rt, f, text').value, s);
    }
  }

  // ---- What is refused ----

  /** The timestamp can be read off the end of a payload. */
  ghost predicate Stamping(c: Crypto) {
    && (forall t: Int64 :: t > 0 ==> c.stamp(t) != "")
    && (forall p: string, q: string, t: Int64, u: Int64 ::
          t > 0 && u > 0 && p + c.stamp(t) == q + c.stamp(u) ==> p == q && t == u)
  }

  /** Less than maxAge nanoseconds lie between the second ts and the clock. */
  predicate YoungEnough(f: Config, ts: int, later: Clock) {
    f.maxAge > 0 && (later.seconds - ts) * 1_000_000_000 + later.nanos < f.maxAge
  }

  lemma PayloadsDiffer(c: Crypto, body: string, t: Int64, u: Int64)
    requires Stamping(c)
    ensures Payload(c, body, t) == Payload(c, body, u) <==> t == u || (t <= 0 && u <= 0)
  {
    if t > 0 && u <= 0 {
      assert |Payload(c, body, t)| == |body| + |c.stamp(t)| > |Payload(c, body, u)|;
    } else if t <= 0 && u > 0 {
      assert |Payload(c, body, u)| == |body| + |c.stamp(u)| > |Payload(c, body, t)|;
    }
  }

  lemma MacIff(c: Crypto, f: Config, p: string, q: string)
    requires Discriminating(c)
    ensures c.mac(f.algorithm, f.secretKey, p) == c.mac(f.algorithm, f.secretKey, q) <==> p == q
    ensures !IsEmpty(c.mac(f.algorithm, f.secretKey, p))
  {
  }

  lemma YoungIff(f: Config, ts: Int64, later: Clock)
    ensures TooOld(f, ts, later) <==>
            f.includeTimestamp && ts != 0 && (ts == -62135596800 || !YoungEnough(f, ts, later))
  {
  }

  /** As the payload shows them: every timestamp that is not positive counts as none. */
  predicate SameStamp(f: Config, t: Int64, u: Int64) {
    f.includeTimestamp ==> t == u || (t <= 0 && u <= 0)
  }

  /**
   * A signature that was changed after it was made, if not in both value and timestamp (a value for another timestamp
   * takes the key): it is accepted for its text exactly if its value is the one that was made, its algorithm too unless
   * it was blanked, its timestamp too if timestamps are signed, and that is recent enough.
   */
  lemma TamperedIff(rt: Runtime, c: Crypto, config: Option<Config>, text: string, now: Clock, g: Signature,
                    later: Clock)
    requires Discriminating(c) && Stamping(c) && Generate(rt, c, config, text, now).Signed?
    requires var made := Generate(rt, c, config, text, now).signature;
             g.value == made.value || SameStamp(config.value, g.timestamp, made.timestamp)
    ensures var (f, made) := (config.value, Generate(rt, c, config, text, now).signature);
            Accepts(rt, c, config, text, g, later) <==>
            && f.headersToSign == [] && g.value == made.value && (IsEmpty(g.algorithm) || g.algorithm == made.algorithm)
            && SameStamp(f, g.timestamp, made.timestamp)
            && (f.includeTimestamp && g.timestamp != 0 ==>
                  g.timestamp != -62135596800 && YoungEnough(f, g.timestamp, later))
  {
    var f, made := config.value, Generate(rt, c, config, text, now).signature;
    var body, ts := Canonical(rt, f, text).value, if f.includeTimestamp then g.timestamp else 0;
    YoungIff(f, g.timestamp, later);
    PayloadsDiffer(c, body, ts, made.timestamp);
    MacIff(c, f, Payload(c, body, ts), Payload(c, body, made.timestamp));
    assert made.value == c.mac(f.algorithm, f.secretKey, Payload(c, body, made.timestamp));
  }

  /** Another timestamp is refused for every text, not only for the signed one. */
  lemma TimestampSigned(rt: Runtime, c: Crypto, config: Option<Config>, text: string, text': string, now: Clock,
                        t: Int64, later: Clock)
    requires Discriminating(c) && Stamping(c) && Generate(rt, c, config, text, now).Signed?
    requires config.value.includeTimestamp && now.seconds > 0 && t > 0
    ensures var made := Generate(rt, c, config, text, now).signature;
            Accepts(rt, c, config, text', made.(timestamp := t), later) ==>
              t == made.timestamp == now.seconds && Alike(rt, config.value, text', text)
  {
    var f, made := config.value, Generate(rt, c, config, text, now).signature;
    if Accepts(rt, c, config, text', made.(timestamp := t), later) {
      assert Canonical(rt, f, text').value + c.stamp(t) == Canonical(rt, f, text).value + c.stamp(now.seconds);
    }
  }

  /** A signature is refused under every key whose codes differ from those of the key it was made with. */
  lemma OtherKeyRefused(rt: Runtime, c: Crypto, config: Option<Config>, config': Option<Config>, text: string,
                        text': string, now: Clock, later: Clock)
    requires Generate(rt, c, config, text, now).Signed? && config'.Some?
    requires forall p: string, q: string ::
               c.mac(config.value.algorithm, config.value.secretKey, p) !=
               c.mac(config'.value.algorithm, config'.value.secretKey, q)
    ensures !Accepts(rt, c, config', text', Generate(rt, c, config, text, now).signature, later)
  {
    var f, f' := config.value, config'.value;
    var g := Generate(rt, c, config, text, now).signature;
    if Canonical(rt, f', text').Some? {
      var ts := if f'.includeTimestamp then g.timestamp else 0;
      assert c.mac(f.algorithm, f.secretKey, Payload(c, Canonical(rt, f, text).value, g.timestamp)) !=
             c.mac(f'.algorithm, f'.secretKey, Payload(c, Canonical(rt, f', text').value, ts));
    }
  }

  lemma {:induction false} OneOfIff(a: string, table: seq<string>)
    ensures OneOf(a, table) <==> a in table
    decreases |table|
  {
    if table != [] {
      OneOfIff(a, table[1..]);
    }
  }

  lemma SupportedIff(a: string)
    ensures OneOf(a, SUPPORTED) <==>
            a in {"HMAC-SHA256", "HMAC-SHA224", "HMAC-SHA512", "HMAC-SHA384", "HMAC-SHA512/256", "HMAC-SHA1",
                  "HMAC-MD5"}
  {
    OneOfIff(a, SUPPORTED);
  }

  /** What a signature is made with; the timestamp is a positive Unix second or absent. */
  lemma MadeWith(rt: Runtime, c: Crypto, config: Option<Config>, text: string, now: Clock)
    requires Generate(rt, c, config, text, now).Signed?
    ensures var g := Generate(rt, c, config, text, now).signature;
            && config.Some? && g.algorithm == config.value.algorithm && g.headers == map[]
            && g.algorithm in {"HMAC-SHA256", "HMAC-SHA224", "HMAC-SHA512", "HMAC-SHA384", "HMAC-SHA512/256",
                               "HMAC-SHA1", "HMAC-MD5"}
            && g.timestamp == (if config.value.includeTimestamp && now.seconds > 0 then now.seconds else 0)
  {
    SupportedIff(config.value.algorithm);
  }

  /** Every refusal: which header, message and error it leaves. */
  lemma RefusedWith(rt: Runtime, c: Crypto, config: Option<Config>, text: string, now: Clock)
    requires Generate(rt, c, config, text, now).Refused?
    ensures var r := Generate(rt, c, config, text, now);
            if Complete(config)
            then
              && r.header == Header(500, "Internal Server Error", "Server Error", "")
              && r.message == "cannot canonicalize JSON while decoding" && r.cause == Some(c.decodeError(text))
            else
              && r.header == Header(400, "Bad Request", "Client Error", "") && r.cause == None
              && r.message == if config.None? then "signature configuration is missing"
                              else if IsEmpty(config.value.algorithm) then "signature algorithm is missing"
                              else if IsEmpty(config.value.secretKey) then "signature secret key is missing"
                              else "unsupported signature algorithm: " + config.value.algorithm
  {
  }

  /** What ApplySignature does to the wrapper: nothing to one with an error, and else it signs or says why not. */
  lemma ApplyOutcome(rt: Runtime, c: Crypto, x: Snapshot, config: Option<Config>, ignored: seq<Key>, now: Clock,
                     seed: Seed, id: nat)
    ensures var z := Apply(rt, c, x, config, ignored, now, seed, id);
            var (y, m) := Render(rt, x, seed);
            var r := Generate(rt, c, config, SignedText(rt, m, ignored), now);
            if x.st.errors.Some? || 400 <= x.st.statusCode <= 599 then z == x
            else if r.Signed? then z.cached.None? && z.hash == NoHash && z.st == y.st.(signature := Some(r.signature))
            else
              && z.cached == y.cached && z.hash == y.hash
              && z.st == y.st.(header := Some(r.header), statusCode := r.header.code, message := r.message,
                               errors := z.st.errors)
              && (r.cause.None? ==> z.st.errors == y.st.errors)
              && (r.cause.Some? ==> z.st.errors.Some? && Message(z.st.errors.value) == Message(r.cause.value)
                                    && Root(z.st.errors) == Root(r.cause) && z.st.errors.value.UnderlyingStack?)
  {
    var r := Generate(rt, c, config, SignedText(rt, Render(rt, x, seed).1, ignored), now);
    if r.Refused? && r.cause.Some? {
      WrapReads(Ack, r.cause.value, id);
      WrapKeepsChain(Ack, r.cause, id, None);
    }
  }

  /** An envelope with an error or without a signature is refused before it is rendered. */
  lemma VerifyOutcome(rt: Runtime, c: Crypto, x: Snapshot, config: Option<Config>, ignored: seq<Key>, now: Clock,
                      seed: Seed)
    ensures var (z, ok) := Verify(rt, c, x, config, ignored, now, seed);
            if x.st.errors.Some? || x.st.signature.None? then z == x && !ok
            else z == Render(rt, x, seed).0
  {
  }

  // ---- What a signature covers ----

  /** What the signature covers of a printed field: its bytes, or only its value when the text is canonicalized. */
  function Signable(rt: Runtime, f: Config, k: Key, v: Option<Value>): Option<Value> {
    if f.canonicalize && k == KData then Meaning(rt, v) else v
  }

  function SignableMap(rt: Runtime, f: Config, m: Dict): Dict {
    if f.canonicalize then ReadBack(rt, m) else m
  }

  lemma ReadBackEncodable(rt: Runtime, m: Dict)
    requires Lawful(rt) && Laid(rt, m) && EncodableTop(m)
    ensures Encodable(Obj(ReadBack(rt, m)))
  {
  }

  /** Two printed maps are signed alike exactly when they agree in what the signature covers. */
  lemma CanonicalAgree(rt: Runtime, f: Config, a: Dict, b: Dict)
    requires Lawful(rt) && Laid(rt, a) && Laid(rt, b) && EncodableTop(b)
    ensures Alike(rt, f, JsonText(rt, a), JsonText(rt, b)) <==>
            EncodableTop(a) && SignableMap(rt, f, a) == SignableMap(rt, f, b)
  {
    JsonReads(rt, a);
    JsonReads(rt, b);
    TextsAgree(rt, a, b);
    if f.canonicalize && EncodableTop(a) {
      ReadBackEncodable(rt, a);
      ReadBackEncodable(rt, b);
      assert rt.decode(rt.encode(Obj(ReadBack(rt, a)))) == Some(Obj(ReadBack(rt, a)));
      assert rt.decode(rt.encode(Obj(ReadBack(rt, b)))) == Some(Obj(ReadBack(rt, b)));
    }
  }

  // ---- Sign, then verify in the same process ----

  /** The field is part of the signed text. */
  predicate Included(k: Key, ignored: seq<Key>) {
    !(k in ignored + [KSignature] && !BlankKey(k))
  }

  lemma KeptOnly(m: Dict, ignored: seq<Key>, k: Key)
    ensures Lookup(Without(m, ignored + [KSignature]), k) == if Included(k, ignored) then Lookup(m, k) else None
  {
  }

  lemma SignableAt(rt: Runtime, f: Config, m: Dict, k: Key)
    ensures Lookup(SignableMap(rt, f, m), k) == Signable(rt, f, k, Lookup(m, k))
  {
    FindsIn(rt, m, k);
  }

  lemma SameSignable(rt: Runtime, f: Config, a: Dict, b: Dict)
    ensures SignableMap(rt, f, a) == SignableMap(rt, f, b) <==>
            forall k :: Signable(rt, f, k, Lookup(a, k)) == Signable(rt, f, k, Lookup(b, k))
  {
    forall k
      ensures Lookup(SignableMap(rt, f, a), k) == Signable(rt, f, k, Lookup(a, k))
      ensures Lookup(SignableMap(rt, f, b), k) == Signable(rt, f, k, Lookup(b, k))
    {
      SignableAt(rt, f, a, k);
      SignableAt(rt, f, b, k);
    }
    SameByLookup(SignableMap(rt, f, a), SignableMap(rt, f, b));
  }

  lemma EncodableLikewise(rt: Runtime, f: Config, x: Dict, y: Dict)
    requires Lawful(rt) && Laid(rt, x) && Laid(rt, y) && EncodableTop(y)
    requires SignableMap(rt, f, x) == SignableMap(rt, f, y)
    ensures EncodableTop(x)
  {
    forall k | k in x
      ensures Encodable(x[k]) || (k == KData && x[k].Raw?)
    {
      SignableAt(rt, f, x, k);
      SignableAt(rt, f, y, k);
    }
  }

  /** Two rendered maps give texts that are signed alike exactly when they agree on every signed field. */
  lemma SameTextOf(rt: Runtime, f: Config, a: Dict, b: Dict, ignored: seq<Key>)
    requires Lawful(rt) && Laid(rt, a) && Laid(rt, b) && EncodableTop(Without(b, ignored + [KSignature]))
    ensures Alike(rt, f, SignedText(rt, a, ignored), SignedText(rt, b, ignored)) <==>
            forall k :: Included(k, ignored) ==> Signable(rt, f, k, Lookup(a, k)) == Signable(rt, f, k, Lookup(b, k))
  {
    var x, y := Without(a, ignored + [KSignature]), Without(b, ignored + [KSignature]);
    CanonicalAgree(rt, f, x, y);
    SameSignable(rt, f, x, y);
    forall k
      ensures Lookup(x, k) == if Included(k, ignored) then Lookup(a, k) else None
      ensures Lookup(y, k) == if Included(k, ignored) then Lookup(b, k) else None
    {
      KeptOnly(a, ignored, k);
      KeptOnly(b, ignored, k);
    }
    if SignableMap(rt, f, x) == SignableMap(rt, f, y) {
      EncodableLikewise(rt, f, x, y);
    }
  }

  /** What a wrapper without error renders, before the signature is attached. */
  function Ready(rt: Runtime, x: Snapshot, seed: Seed): State {
    Render(rt, x, seed).0.st
  }

  /** What it renders once the signature is attached. */
  function Attached(rt: Runtime, t: State, g: Signature, seed: Seed): State {
    Rendering(rt, t.(signature := Some(g)), seed)
  }

  predicate Signs(rt: Runtime, c: Crypto, x: Snapshot, config: Option<Config>, ignored: seq<Key>, now: Clock,
                  seed: Seed) {
    !IsError(x.st) && Generate(rt, c, config, SignedText(rt, Render(rt, x, seed).1, ignored), now).Signed?
  }

  function SignatureMade(rt: Runtime, c: Crypto, x: Snapshot, config: Option<Config>, ignored: seq<Key>, now: Clock,
                         seed: Seed): Signature
    requires Signs(rt, c, x, config, ignored, now, seed)
  {
    Generate(rt, c, config, SignedText(rt, Render(rt, x, seed).1, ignored), now).signature
  }

  /** The configuration can be verified with VerifySignature, and the age of the signature allows it. */
  predicate Verifiable(f: Config, now: Clock, later: Clock) {
    f.headersToSign == [] && !(f.includeTimestamp && now.seconds > 0 && Expired(f, now.seconds, later))
  }

  lemma ReadyQuiet(rt: Runtime, x: Snapshot, seed: Seed)
    requires !IsError(x.st)
    ensures var t := Ready(rt, x, seed);
            t == ResolveStatus(x.st) && t.errors.None? && ResolveStatus(t) == t
  {
  }

  /**
   * Verification succeeds exactly when the text rendered with the signature attached is signed like the signed text.
   */
  lemma VerifiesIff(rt: Runtime, c: Crypto, x: Snapshot, config: Option<Config>, ignored: seq<Key>, now: Clock,
                    seed: Seed, id: nat, later: Clock, seed': Seed)
    requires Discriminating(c) && Signs(rt, c, x, config, ignored, now, seed)
    ensures var u := Attached(rt, Ready(rt, x, seed), SignatureMade(rt, c, x, config, ignored, now, seed), seed');
            Verify(rt, c, Apply(rt, c, x, config, ignored, now, seed, id), config, ignored, later, seed').1 <==>
            && Verifiable(config.value, now, later)
            && Alike(rt, config.value, SignedText(rt, Build(rt, u), ignored),
                     SignedText(rt, Render(rt, x, seed).1, ignored))
  {
    var (y, m) := Render(rt, x, seed);
    var g := SignatureMade(rt, c, x, config, ignored, now, seed);
    ReadyQuiet(rt, x, seed);
    var u := Attached(rt, y.st, g, seed');
    assert Apply(rt, c, x, config, ignored, now, seed, id) == Uncached(y.st.(signature := Some(g)));
    assert Render(rt, Uncached(y.st.(signature := Some(g))), seed').1 == Build(rt, u);
    AcceptsIff(rt, c, config, SignedText(rt, m, ignored), SignedText(rt, Build(rt, u), ignored), now, later);
  }

  lemma RestOfCells(rt: Runtime, t: State, g: Option<Signature>, es: Option<Err>, i: Option<Issue>, k: Key)
    requires k != KSignature && k != KIssue
    ensures Cell(rt, t.(signature := g, errors := es, issue := i), k) == Cell(rt, t, k)
  {
  }

  /** Attaching a signature adds an issue when the status read from the header is a failure; nothing else moves. */
  lemma AttachedCells(rt: Runtime, t: State, g: Signature, seed: Seed)
    requires t.errors.None? && ResolveStatus(t) == t
    ensures var u := Attached(rt, t, g, seed);
            && (forall k :: k != KSignature && k != KIssue ==> Cell(rt, u, k) == Cell(rt, t, k))
            && (Cell(rt, u, KIssue) == Cell(rt, t, KIssue) <==> !IsFailure(t.statusCode) || t.issue.Some?)
            && u.signature == Some(g) && u.statusCode == t.statusCode && u.header == t.header
            && (IsFailure(t.statusCode) ==> u.issue.Some?)
            && (!IsFailure(t.statusCode) ==> u.errors.None?)
  {
    var u := Attached(rt, t, g, seed);
    assert u == t.(signature := Some(g), errors := u.errors, issue := u.issue);
    forall k | k != KSignature && k != KIssue
      ensures Cell(rt, u, k) == Cell(rt, t, k)
    {
      RestOfCells(rt, t, Some(g), u.errors, u.issue, k);
    }
    assert Cell(rt, t, KIssue) == if t.issue.Some? then Some(Obj(IssueRespond(t.issue.value))) else None;
    assert Cell(rt, u, KIssue) == if u.issue.Some? then Some(Obj(IssueRespond(u.issue.value))) else None;
  }

  /** The rendered map is what build prints now; RenderCache says when that holds. */
  predicate UpToDate(rt: Runtime, x: Snapshot, seed: Seed) {
    Render(rt, x, seed).1 == Build(rt, Ready(rt, x, seed))
  }

  /** With an up-to-date cache the signed text is that of a fresh build. */
  lemma VerifiesFresh(rt: Runtime, c: Crypto, x: Snapshot, config: Option<Config>, ignored: seq<Key>, now: Clock,
                      seed: Seed, id: nat, later: Clock, seed': Seed)
    requires Discriminating(c) && Signs(rt, c, x, config, ignored, now, seed) && UpToDate(rt, x, seed)
    ensures var t := Ready(rt, x, seed);
            var u := Attached(rt, t, SignatureMade(rt, c, x, config, ignored, now, seed), seed');
            Verify(rt, c, Apply(rt, c, x, config, ignored, now, seed, id), config, ignored, later, seed').1 <==>
            && Verifiable(config.value, now, later)
            && Alike(rt, config.value, SignedText(rt, Build(rt, u), ignored), SignedText(rt, Build(rt, t), ignored))
  {
    VerifiesIff(rt, c, x, config, ignored, now, seed, id, later, seed');
  }

  lemma SignedCanonical(rt: Runtime, c: Crypto, config: Option<Config>, text: string, now: Clock)
    requires Generate(rt, c, config, text, now).Signed?
    ensures config.Some? && Canonical(rt, config.value, text).Some?
  {
  }

  lemma FreshCanonical(rt: Runtime, c: Crypto, x: Snapshot, config: Option<Config>, ignored: seq<Key>, now: Clock,
                       seed: Seed)
    requires Signs(rt, c, x, config, ignored, now, seed) && UpToDate(rt, x, seed)
    ensures config.Some? && Canonical(rt, config.value, SignedText(rt, Build(rt, Ready(rt, x, seed)), ignored)).Some?
  {
    SignedCanonical(rt, c, config, SignedText(rt, Render(rt, x, seed).1, ignored), now);
  }

  /** autoAdjust adds no issue to the signed text after signing. */
  predicate NoNewIssue(t: State, ignored: seq<Key>) {
    !IsFailure(t.statusCode) || t.issue.Some? || !Included(KIssue, ignored)
  }

  /** Two states give texts that are signed alike exactly when they agree on every signed field. */
  lemma SameText(rt: Runtime, f: Config, q: State, t: State, ignored: seq<Key>)
    requires Lawful(rt) && EncodableTop(Without(Build(rt, t), ignored + [KSignature]))
    ensures Alike(rt, f, SignedText(rt, Build(rt, q), ignored), SignedText(rt, Build(rt, t), ignored)) <==>
            forall k :: Included(k, ignored) ==>
              Signable(rt, f, k, Cell(rt, q, k)) == Signable(rt, f, k, Cell(rt, t, k))
  {
    BuildCells(rt, q);
    BuildCells(rt, t);
    BuildLaid(rt, q);
    BuildLaid(rt, t);
    SameTextOf(rt, f, Build(rt, q), Build(rt, t), ignored);
  }

  lemma AttachedMatches(rt: Runtime, f: Config, t: State, u: State, ignored: seq<Key>)
    requires forall k :: k != KSignature && k != KIssue ==> Cell(rt, u, k) == Cell(rt, t, k)
    ensures (forall k ::
              Included(k, ignored) ==> Signable(rt, f, k, Cell(rt, u, k)) == Signable(rt, f, k, Cell(rt, t, k))) <==>
            Cell(rt, u, KIssue) == Cell(rt, t, KIssue) || !Included(KIssue, ignored)
  {
    if Cell(rt, u, KIssue) == Cell(rt, t, KIssue) || !Included(KIssue, ignored) {
      forall k | Included(k, ignored)
        ensures Cell(rt, u, k) == Cell(rt, t, k)
      {
        assert k != KSignature;
      }
    } else {
      assert Signable(rt, f, KIssue, Cell(rt, u, KIssue)) != Signable(rt, f, KIssue, Cell(rt, t, KIssue));
    }
  }

  lemma IssueEncodable(i: Issue)
    ensures EncodableDict(IssueRespond(i))
  {
  }

  lemma StillUnencodableMap(b: Dict, a: Dict, ks: seq<Key>)
    requires forall k :: k != KSignature && k != KIssue ==> Lookup(a, k) == Lookup(b, k)
    requires KSignature in ks && (KIssue in b ==> Encodable(b[KIssue])) && !EncodableTop(Without(b, ks))
    ensures !EncodableTop(Without(a, ks))
  {
    var k :| k in Without(b, ks) && !Encodable(b[k]) && !(k == KData && b[k].Raw?);
    assert Lookup(a, k) == Lookup(b, k);
    assert k in Without(a, ks);
  }

  lemma StillUnencodable(rt: Runtime, t: State, u: State, ignored: seq<Key>)
    requires forall k :: k != KSignature && k != KIssue ==> Cell(rt, u, k) == Cell(rt, t, k)
    requires !EncodableTop(Without(Build(rt, t), ignored + [KSignature]))
    ensures !EncodableTop(Without(Build(rt, u), ignored + [KSignature]))
  {
    BuildCells(rt, u);
    BuildCells(rt, t);
    assert Lookup(Build(rt, t), KIssue) == Cell(rt, t, KIssue);
    if t.issue.Some? {
      IssueEncodable(t.issue.value);
    }
    StillUnencodableMap(Build(rt, t), Build(rt, u), ignored + [KSignature]);
  }

  lemma AttachedText(rt: Runtime, f: Config, t: State, g: Signature, ignored: seq<Key>, seed: Seed)
    requires Lawful(rt) && t.errors.None? && ResolveStatus(t) == t
    requires Canonical(rt, f, SignedText(rt, Build(rt, t), ignored)).Some?
    ensures var u := Attached(rt, t, g, seed);
            Alike(rt, f, SignedText(rt, Build(rt, u), ignored), SignedText(rt, Build(rt, t), ignored)) <==>
            NoNewIssue(t, ignored) || !EncodableTop(Without(Build(rt, t), ignored + [KSignature]))
  {
    var u := Attached(rt, t, g, seed);
    AttachedCells(rt, t, g, seed);
    AttachedMatches(rt, f, t, u, ignored);
    BuildLaid(rt, t);
    BuildLaid(rt, u);
    JsonReads(rt, Without(Build(rt, t), ignored + [KSignature]));
    if EncodableTop(Without(Build(rt, t), ignored + [KSignature])) {
      SameText(rt, f, u, t, ignored);
    } else {
      StillUnencodable(rt, t, u, ignored);
      JsonReads(rt, Without(Build(rt, u), ignored + [KSignature]));
    }
  }

  /**
   * On a wrapper without error and with an up-to-date cache, the recomputed bytes are the signed ones exactly when
   * the header does not turn the status into a failure that gets an issue after signing; a map that cannot be
   * encoded is signed, and verified, as the empty text. Earlier signatures play no part.
   */
  lemma SignThenVerify(rt: Runtime, c: Crypto, x: Snapshot, config: Option<Config>, ignored: seq<Key>, now: Clock,
                       seed: Seed, id: nat, later: Clock, seed': Seed)
    requires Lawful(rt) && Discriminating(c) && Signs(rt, c, x, config, ignored, now, seed) && UpToDate(rt, x, seed)
    ensures var t := Ready(rt, x, seed);
            Verify(rt, c, Apply(rt, c, x, config, ignored, now, seed, id), config, ignored, later, seed').1 <==>
            && Verifiable(config.value, now, later)
            && (NoNewIssue(t, ignored) || !EncodableTop(Without(Build(rt, t), ignored + [KSignature])))
  {
    VerifiesFresh(rt, c, x, config, ignored, now, seed, id, later, seed');
    FreshCanonical(rt, c, x, config, ignored, now, seed);
    ReadyQuiet(rt, x, seed);
    var g := SignatureMade(rt, c, x, config, ignored, now, seed);
    AttachedText(rt, config.value, Ready(rt, x, seed), g, ignored, seed');
  }

  lemma SignatureOnly(rt: Runtime, t: State, g: Signature, k: Key)
    requires k != KSignature
    ensures Cell(rt, t.(signature := Some(g)), k) == Cell(rt, t, k)
  {
  }

  lemma SameWithout(rt: Runtime, t: State, g: Signature, ignored: seq<Key>)
    ensures var t' := t.(signature := Some(g));
            Without(Build(rt, t'), ignored + [KSignature]) == Without(Build(rt, t), ignored + [KSignature])
  {
    var t' := t.(signature := Some(g));
    var a, b := Without(Build(rt, t'), ignored + [KSignature]), Without(Build(rt, t), ignored + [KSignature]);
    BuildCells(rt, t);
    BuildCells(rt, t');
    forall k
      ensures Lookup(a, k) == Lookup(b, k)
    {
      KeptOnly(Build(rt, t'), ignored, k);
      KeptOnly(Build(rt, t), ignored, k);
      if k != KSignature {
        SignatureOnly(rt, t, g, k);
      }
    }
    SameByLookup(a, b);
  }

  /** Signing again signs the same bytes; when the status turned into a failure it does nothing. */
  lemma SignAgain(rt: Runtime, c: Crypto, x: Snapshot, config: Option<Config>, ignored: seq<Key>, now: Clock,
                  seed: Seed, id: nat, seed': Seed)
    requires Lawful(rt) && Signs(rt, c, x, config, ignored, now, seed) && UpToDate(rt, x, seed)
    ensures var z := Apply(rt, c, x, config, ignored, now, seed, id);
            && (IsFailure(z.st.statusCode) ==> Apply(rt, c, z, config, ignored, now, seed', id) == z)
            && (!IsFailure(z.st.statusCode) ==>
                  && !IsError(z.st)
                  && SignedText(rt, Render(rt, z, seed').1, ignored) == SignedText(rt, Render(rt, x, seed).1, ignored)
                  && Apply(rt, c, z, config, ignored, now, seed', id) == z)
  {
    var t := Ready(rt, x, seed);
    var g := SignatureMade(rt, c, x, config, ignored, now, seed);
    var z := Apply(rt, c, x, config, ignored, now, seed, id);
    ReadyQuiet(rt, x, seed);
    assert z == Uncached(t.(signature := Some(g)));
    if !IsFailure(t.statusCode) {
      SameWithout(rt, t, g, ignored);
      assert Attached(rt, t, g, seed') == t.(signature := Some(g));
    }
  }

  lemma CanSign(rt: Runtime, c: Crypto, t: State, config: Option<Config>, ignored: seq<Key>, now: Clock)
    requires Lawful(rt) && Complete(config) && EncodableTop(Build(rt, t))
    ensures Generate(rt, c, config, SignedText(rt, Build(rt, t), ignored), now).Signed?
  {
    BuildLaid(rt, t);
    JsonReads(rt, Without(Build(rt, t), ignored + [KSignature]));
    GenerateIff(rt, c, config, SignedText(rt, Build(rt, t), ignored), now);
  }

  lemma CursorCells(rt: Runtime, f: Config, t: State, cur: Cursor)
    requires t.cursor != Some(cur)
    ensures Signable(rt, f, KCursor, Cell(rt, t.(cursor := Some(cur)), KCursor)) !=
            Signable(rt, f, KCursor, Cell(rt, t, KCursor))
  {
    if t.cursor.Some? {
      CursorRespondInjective(t.cursor.value, cur);
    }
  }

  lemma CursorText(rt: Runtime, f: Config, t: State, cur: Cursor, ignored: seq<Key>)
    requires Lawful(rt) && Included(KCursor, ignored) && EncodableTop(Build(rt, t))
    ensures var t' := t.(cursor := Some(cur));
            Alike(rt, f, SignedText(rt, Build(rt, t'), ignored), SignedText(rt, Build(rt, t), ignored)) <==>
            t.cursor == Some(cur)
  {
    var t' := t.(cursor := Some(cur));
    SameText(rt, f, t', t, ignored);
    if t.cursor == Some(cur) {
      assert t' == t;
    } else {
      CursorCells(rt, f, t, cur);
    }
  }

  /** The snapshot shows the map of t, which has another cursor. */
  lemma StaleVerifies(rt: Runtime, c: Crypto, x: Snapshot, t: State, cur: Cursor, config: Option<Config>,
                      ignored: seq<Key>, now: Clock, seed: Seed, id: nat, later: Clock, seed': Seed)
    requires Lawful(rt) && Discriminating(c) && Included(KCursor, ignored) && EncodableTop(Build(rt, t))
    requires Signs(rt, c, x, config, ignored, now, seed) && Verifiable(config.value, now, later)
    requires x.st == t.(cursor := Some(cur)) && Render(rt, x, seed) == (x, Build(rt, t)) && !IsFailure(t.statusCode)
    requires ResolveStatus(t) == t
    ensures Verify(rt, c, Apply(rt, c, x, config, ignored, now, seed, id), config, ignored, later, seed').1 <==>
            t.cursor == Some(cur)
  {
    VerifiesIff(rt, c, x, config, ignored, now, seed, id, later, seed');
    var g := SignatureMade(rt, c, x, config, ignored, now, seed);
    SameWithout(rt, x.st, g, ignored);
    assert Attached(rt, x.st, g, seed') == x.st.(signature := Some(g));
    CursorText(rt, config.value, t, cur, ignored);
  }

  /**
   * The cache has to be up to date: after a render, WithCursor and ApplySignature sign the old cursor, and the
   * signature verifies only if the cursor did not change.
   */
  lemma StaleCursorBreaks(rt: Runtime, c: Crypto, t: State, cur: Cursor, config: Option<Config>, ignored: seq<Key>,
                          now: Clock, seed: Seed, id: nat, later: Clock, seed': Seed)
    requires Lawful(rt) && Discriminating(c) && Included(KCursor, ignored)
    requires Hashable(t) && !IsError(t) && ResolveStatus(t) == t && EncodableTop(Build(rt, t))
    requires Complete(config) && Verifiable(config.value, now, later)
    ensures var x := Step(rt, JustRendered(rt, t), WithCursor(Some(cur)));
            Verify(rt, c, Apply(rt, c, x, config, ignored, now, seed, id), config, ignored, later, seed').1 <==>
            t.cursor == Some(cur)
  {
    CursorHit(rt, t, cur, seed);
    var x := Step(rt, JustRendered(rt, t), WithCursor(Some(cur)));
    CanSign(rt, c, t, config, ignored, now);
    StaleVerifies(rt, c, x, t, cur, config, ignored, now, seed, id, later, seed');
  }

  // ---- Sign, print, parse, verify ----

  /** The receiver's side: UnwrapJSON on the text JSON prints, then VerifySignature. */
  predicate Received(rt: Runtime, c: Crypto, x: Snapshot, config: Option<Config>, ignored: seq<Key>, seed: Seed,
                     later: Clock, seed': Seed) {
    match UnwrapText(rt, JsonText(rt, Render(rt, x, seed).1))
    case None => false
    case Some(p) => Verify(rt, c, Uncached(p), config, ignored, later, seed').1
  }

  lemma ParsedStatus(rt: Runtime, m: Dict, u: State)
    requires Lookup(m, KStatusCode) == Cell(rt, u, KStatusCode)
    ensures Parse(rt, m).statusCode == if u.statusCode > 0 then u.statusCode else 0
  {
  }

  lemma ParsedHeaderCode(rt: Runtime, m: Dict, h: Option<Header>)
    requires Lookup(m, KHeader) == When(h.Some?, Obj(HeaderRespond(h)))
    ensures HeaderCode(HeaderAt(rt, m)) == if HeaderCode(h) > 0 then HeaderCode(h) else 0
  {
  }

  lemma ParsedHeader(rt: Runtime, m: Dict, u: State)
    requires Lookup(m, KHeader) == Cell(rt, u, KHeader)
    ensures HeaderCode(Parse(rt, m).header) == if HeaderCode(u.header) > 0 then HeaderCode(u.header) else 0
  {
    ParsedHeaderCode(rt, m, u.header);
  }

  lemma ParsedIssue(rt: Runtime, m: Dict, u: State)
    requires Lookup(m, KIssue) == Cell(rt, u, KIssue)
    ensures Parse(rt, m).issue.Some? <==> u.issue.Some?
  {
  }

  lemma SignatureComesBack(rt: Runtime, m: Dict, g: Signature)
    requires Lookup(m, KSignature) == Some(Obj(SignatureRespond(g)))
    requires !IsEmpty(g.algorithm) && !IsEmpty(g.value) && g.headers == map[]
    ensures Unwrap.SignatureAt(rt, m) == Some(g)
  {
    assert ParseTexts(map[]) == map[];
  }

  lemma ParsedSignature(rt: Runtime, m: Dict, u: State, g: Signature)
    requires Lookup(m, KSignature) == Cell(rt, u, KSignature) && u.signature == Some(g)
    requires !IsEmpty(g.algorithm) && !IsEmpty(g.value) && g.headers == map[]
    ensures Parse(rt, m).signature == Some(g)
  {
    SignatureComesBack(rt, m, g);
  }

  lemma ErrorsUnseen(rt: Runtime, p: State, es: Option<Err>, k: Key)
    ensures Cell(rt, p.(errors := es), k) == Cell(rt, p, k)
  {
  }

  lemma ParsedSettles(rt: Runtime, p: State, seed: Seed)
    requires p.errors.None? && (IsFailure(p.statusCode) ==> p.issue.Some?)
    requires p.statusCode == 0 ==> HeaderCode(p.header) == 0
    requires p.statusCode >= 0
    ensures Rendering(rt, p, seed) == p.(errors := Rendering(rt, p, seed).errors)
  {
  }

  /** Rendering a parsed envelope prints what was parsed: it has an issue already if its status is a failure. */
  lemma ParsedRenders(rt: Runtime, u: State, seed: Seed, k: Key)
    requires ResolveStatus(u) == u && (IsFailure(u.statusCode) ==> u.issue.Some?)
    ensures var p := Parse(rt, Reread(rt, u));
            Cell(rt, Rendering(rt, p, seed), k) == Cell(rt, p, k)
  {
    var m := Reread(rt, u);
    RereadFinds(rt, u, KStatusCode);
    RereadFinds(rt, u, KHeader);
    RereadFinds(rt, u, KIssue);
    ParsedStatus(rt, m, u);
    ParsedHeader(rt, m, u);
    ParsedIssue(rt, m, u);
    ParsedSettles(rt, Parse(rt, m), seed);
    ErrorsUnseen(rt, Parse(rt, m), Rendering(rt, Parse(rt, m), seed).errors, k);
  }

  /** The field reaches the receiver: with its bytes, or only with its value if the signature covers no more. */
  predicate Comes(rt: Runtime, f: Config, t: State, k: Key) {
    if f.canonicalize && k == KData then DataKept(rt, t) else FieldSurvives(rt, t, k)
  }

  lemma FieldRendered(rt: Runtime, f: Config, u: State, seed: Seed, k: Key)
    requires Lawful(rt) && WellTyped(rt, u)
    requires ResolveStatus(u) == u && (IsFailure(u.statusCode) ==> u.issue.Some?)
    ensures var q := Rendering(rt, Parse(rt, Reread(rt, u)), seed);
            Signable(rt, f, k, Cell(rt, q, k)) == Signable(rt, f, k, Cell(rt, u, k)) <==> Comes(rt, f, u, k)
  {
    ParsedRenders(rt, u, seed, k);
    FieldReprints(rt, u, k);
    if k == KData {
      RereadFinds(rt, u, KData);
      DataFrom(rt, Reread(rt, u), u);
    }
  }

  lemma SameSurvival(rt: Runtime, f: Config, t: State, g: Option<Signature>, es: Option<Err>, i: Option<Issue>, k: Key)
    ensures Comes(rt, f, t.(signature := g, errors := es, issue := i), k) == Comes(rt, f, t, k)
    ensures WellTyped(rt, t.(signature := g, errors := es, issue := i)) == WellTyped(rt, t)
  {
  }

  /** The field is the same in the text the receiver verifies. */
  predicate Arrives(rt: Runtime, f: Config, t: State, k: Key) {
    if k == KIssue then !IsFailure(t.statusCode) || t.issue.Some? else Comes(rt, f, t, k)
  }

  /** The signature of t covers the field as q prints it. */
  predicate Reaches(rt: Runtime, f: Config, q: State, t: State, k: Key) {
    Signable(rt, f, k, Cell(rt, q, k)) == Signable(rt, f, k, Cell(rt, t, k))
  }

  /** q is what the receiver renders of u, which is t with a signature attached. */
  lemma ReachesVia(rt: Runtime, f: Config, q: State, u: State, t: State, k: Key)
    requires Signable(rt, f, k, Cell(rt, q, k)) == Signable(rt, f, k, Cell(rt, u, k)) <==> Comes(rt, f, u, k)
    requires Comes(rt, f, u, k) == Comes(rt, f, t, k)
    requires k != KIssue ==> Cell(rt, u, k) == Cell(rt, t, k)
    requires Cell(rt, u, KIssue) == Cell(rt, t, KIssue) <==> !IsFailure(t.statusCode) || t.issue.Some?
    ensures Reaches(rt, f, q, t, k) <==> Arrives(rt, f, t, k)
  {
  }

  lemma AttachedShape(rt: Runtime, t: State, g: Signature, seed: Seed)
    requires t.errors.None? && ResolveStatus(t) == t
    ensures var u := Attached(rt, t, g, seed);
            u == t.(signature := Some(g), errors := u.errors, issue := u.issue) && ResolveStatus(u) == u
  {
  }

  /** The field reaches the receiver as it was signed. */
  lemma FieldReceived(rt: Runtime, f: Config, t: State, g: Signature, seed: Seed, seed': Seed, k: Key)
    requires Lawful(rt) && t.errors.None? && ResolveStatus(t) == t && WellTyped(rt, t) && k != KSignature
    ensures var q := Rendering(rt, Parse(rt, Reread(rt, Attached(rt, t, g, seed))), seed');
            Reaches(rt, f, q, t, k) <==> Arrives(rt, f, t, k)
  {
    var u := Attached(rt, t, g, seed);
    AttachedCells(rt, t, g, seed);
    AttachedShape(rt, t, g, seed);
    SameSurvival(rt, f, t, Some(g), u.errors, u.issue, k);
    FieldRendered(rt, f, u, seed', k);
    ReachesVia(rt, f, Rendering(rt, Parse(rt, Reread(rt, u)), seed'), u, t, k);
  }

  lemma SignatureFields(rt: Runtime, c: Crypto, config: Option<Config>, text: string, now: Clock)
    requires Discriminating(c) && Generate(rt, c, config, text, now).Signed?
    ensures var g := Generate(rt, c, config, text, now).signature;
            !IsEmpty(g.algorithm) && !IsEmpty(g.value) && g.headers == map[]
  {
  }

  /** A received envelope that carries the signature of a text verifies exactly when it renders a text signed alike. */
  lemma ParsedVerifies(rt: Runtime, c: Crypto, p: State, config: Option<Config>, ignored: seq<Key>, text: string,
                       now: Clock, later: Clock, seed: Seed)
    requires Discriminating(c) && p.errors.None?
    requires Generate(rt, c, config, text, now).Signed?
    requires p.signature == Some(Generate(rt, c, config, text, now).signature)
    ensures Verify(rt, c, Uncached(p), config, ignored, later, seed).1 <==>
            && Verifiable(config.value, now, later)
            && Alike(rt, config.value, SignedText(rt, Build(rt, Rendering(rt, p, seed)), ignored), text)
  {
    AcceptsIff(rt, c, config, text, SignedText(rt, Build(rt, Rendering(rt, p, seed)), ignored), now, later);
  }

  predicate EncodableCell(k: Key, v: Option<Value>) {
    v.Some? ==> Encodable(v.value) || (k == KData && v.value.Raw?)
  }

  lemma CellsOf(m: Dict)
    ensures EncodableTop(m) <==> forall k :: EncodableCell(k, Lookup(m, k))
  {
    if forall k :: EncodableCell(k, Lookup(m, k)) {
      forall k | k in m
        ensures Encodable(m[k]) || (k == KData && m[k].Raw?)
      {
        assert EncodableCell(k, Lookup(m, k));
      }
    }
  }

  lemma EncodableCells(rt: Runtime, s: State)
    ensures EncodableTop(Build(rt, s)) <==> forall k :: EncodableCell(k, Cell(rt, s, k))
  {
    BuildCells(rt, s);
    CellsOf(Build(rt, s));
  }

  lemma IssueCellEncodable(rt: Runtime, u: State)
    ensures EncodableCell(KIssue, Cell(rt, u, KIssue))
  {
    if u.issue.Some? { IssueEncodable(u.issue.value); }
  }

  lemma SignatureEncodable(g: Signature)
    ensures EncodableDict(SignatureRespond(g))
  {
    assert EncodableDict(TextDict(g.headers));
  }

  lemma SignatureCellEncodable(rt: Runtime, u: State)
    ensures EncodableCell(KSignature, Cell(rt, u, KSignature))
  {
    if u.signature.Some? { SignatureEncodable(u.signature.value); }
  }

  lemma EncodableAlike(rt: Runtime, t: State, u: State)
    requires EncodableTop(Build(rt, t))
    requires forall k :: k != KSignature && k != KIssue ==> Cell(rt, u, k) == Cell(rt, t, k)
    ensures EncodableTop(Build(rt, u))
  {
    EncodableCells(rt, t);
    forall k
      ensures EncodableCell(k, Cell(rt, u, k))
    {
      if k == KIssue {
        IssueCellEncodable(rt, u);
      } else if k == KSignature {
        SignatureCellEncodable(rt, u);
      }
    }
    EncodableCells(rt, u);
  }

  lemma AttachedEncodable(rt: Runtime, t: State, g: Signature, seed: Seed)
    requires t.errors.None? && ResolveStatus(t) == t && EncodableTop(Build(rt, t))
    ensures EncodableTop(Build(rt, Attached(rt, t, g, seed))) && |Build(rt, Attached(rt, t, g, seed))| > 0
  {
    var u := Attached(rt, t, g, seed);
    AttachedCells(rt, t, g, seed);
    EncodableAlike(rt, t, u);
    BuildCells(rt, u);
    assert Lookup(Build(rt, u), KSignature) == Cell(rt, u, KSignature) != None;
  }

  lemma PayloadEncodable(rt: Runtime, t: State)
    requires EncodableTop(Build(rt, t))
    ensures Bodies.Present(t.data) && !t.skipBody ==> Bodies.Printed(rt, t.data).Raw?
  {
    EncodableCells(rt, t);
    assert EncodableCell(KData, Cell(rt, t, KData));
  }

  lemma FieldsReceived(rt: Runtime, f: Config, t: State, g: Signature, seed: Seed, seed': Seed)
    requires Lawful(rt) && t.errors.None? && ResolveStatus(t) == t && WellTyped(rt, t)
    ensures var q := Rendering(rt, Parse(rt, Reread(rt, Attached(rt, t, g, seed))), seed');
            forall k :: k != KSignature ==> (Reaches(rt, f, q, t, k) <==> Arrives(rt, f, t, k))
  {
    forall k | k != KSignature
      ensures var q := Rendering(rt, Parse(rt, Reread(rt, Attached(rt, t, g, seed))), seed');
              Reaches(rt, f, q, t, k) <==> Arrives(rt, f, t, k)
    {
      FieldReceived(rt, f, t, g, seed, seed', k);
    }
  }

  lemma ArriveOrIssue(rt: Runtime, f: Config, t: State, ignored: seq<Key>)
    ensures (forall k :: Included(k, ignored) ==> Arrives(rt, f, t, k)) <==>
            NoNewIssue(t, ignored) && forall k :: Included(k, ignored) ==> Comes(rt, f, t, k)
  {
    assert Comes(rt, f, t, KIssue);
    if forall k :: Included(k, ignored) ==> Arrives(rt, f, t, k) {
      assert Included(KIssue, ignored) ==> Arrives(rt, f, t, KIssue);
      forall k | Included(k, ignored)
        ensures Comes(rt, f, t, k)
      {
        assert Arrives(rt, f, t, k);
      }
    }
  }

  lemma ArrivingText(rt: Runtime, f: Config, q: State, t: State, ignored: seq<Key>)
    requires Lawful(rt) && EncodableTop(Build(rt, t))
    requires forall k :: k != KSignature ==> (Reaches(rt, f, q, t, k) <==> Arrives(rt, f, t, k))
    ensures Alike(rt, f, SignedText(rt, Build(rt, q), ignored), SignedText(rt, Build(rt, t), ignored)) <==>
            NoNewIssue(t, ignored) && forall k :: Included(k, ignored) ==> Comes(rt, f, t, k)
  {
    SameText(rt, f, q, t, ignored);
    ArriveOrIssue(rt, f, t, ignored);
  }

  lemma ReceivedText(rt: Runtime, f: Config, t: State, g: Signature, ignored: seq<Key>, seed: Seed, seed': Seed)
    requires Lawful(rt) && t.errors.None? && ResolveStatus(t) == t && WellTyped(rt, t) && EncodableTop(Build(rt, t))
    ensures var q := Rendering(rt, Parse(rt, Reread(rt, Attached(rt, t, g, seed))), seed');
            Alike(rt, f, SignedText(rt, Build(rt, q), ignored), SignedText(rt, Build(rt, t), ignored)) <==>
            NoNewIssue(t, ignored) && forall k :: Included(k, ignored) ==> Comes(rt, f, t, k)
  {
    FieldsReceived(rt, f, t, g, seed, seed');
    ArrivingText(rt, f, Rendering(rt, Parse(rt, Reread(rt, Attached(rt, t, g, seed))), seed'), t, ignored);
  }

  /**
   * From a wrapper without error, with an up-to-date cache and an encodable map: sign, JSON, UnwrapJSON, verify with
   * the same configuration and ignored fields succeeds exactly when the signature can be verified at that time, no
   * issue is added after signing, and every signed field comes through the print and the parse. A payload comes with
   * its bytes only if its object keys were sorted; canonicalization asks for no more than its value.
   */
  lemma SignPrintParseVerify(rt: Runtime, c: Crypto, x: Snapshot, config: Option<Config>, ignored: seq<Key>, now: Clock,
                             seed: Seed, id: nat, seed1: Seed, later: Clock, seed2: Seed)
    requires Lawful(rt) && Discriminating(c) && Signs(rt, c, x, config, ignored, now, seed) && UpToDate(rt, x, seed)
    requires EncodableTop(Build(rt, Ready(rt, x, seed)))
    requires x.st.meta.Some? ==> FloatLiteral(rt, x.st.meta.value.deltaValue)
    ensures var t := Ready(rt, x, seed);
            Received(rt, c, Apply(rt, c, x, config, ignored, now, seed, id), config, ignored, seed1, later, seed2) <==>
            && Verifiable(config.value, now, later)
            && NoNewIssue(t, ignored)
            && (forall k :: Included(k, ignored) ==> Comes(rt, config.value, t, k))
  {
    var t := Ready(rt, x, seed);
    var g := SignatureMade(rt, c, x, config, ignored, now, seed);
    ReadyQuiet(rt, x, seed);
    var u := Attached(rt, t, g, seed1);
    AttachedEncodable(rt, t, g, seed1);
    PayloadEncodable(rt, t);
    BuildLaid(rt, u);
    UnwrapReadsJSON(rt, Build(rt, u));
    SignatureFields(rt, c, config, SignedText(rt, Build(rt, t), ignored), now);
    AttachedCells(rt, t, g, seed1);
    RereadFinds(rt, u, KSignature);
    ParsedSignature(rt, Reread(rt, u), u, g);
    ParsedVerifies(rt, c, Parse(rt, Reread(rt, u)), config, ignored, SignedText(rt, Build(rt, t), ignored), now,
                   later, seed2);
    ReceivedText(rt, config.value, t, g, ignored, seed1, seed2);
  }
}
