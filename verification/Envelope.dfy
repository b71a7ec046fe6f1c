/** replify.go as functions on values: the state of a wrapper, what it prints, and what each call does to it. */
module Envelope {
  import opened Values
  import opened Library
  import opened Parts
  import opened Bodies
  import opened Pages
  import opened ErrorChain

  /** The fields of a wrapper other than the render cache. Nil and empty debug maps behave alike. */
  datatype State = State(
    statusCode: Int64, total: Int64, message: string, data: Body, path: string,
    header: Option<Header>, meta: Option<Meta>, pagination: Option<PageState>, cursor: Option<Cursor>,
    issue: Option<Issue>, signature: Option<Signature>, reason: Option<Reason>, links: Option<LinkMap>,
    debug: Dict, errors: Option<Err>, skipBody: bool)

  // ---- Status classes ----

  predicate IsSuccess(code: int) { 200 <= code <= 299 }
  predicate IsFailure(code: int) { 400 <= code <= 599 }

  /** wrapper.IsError. */
  predicate IsError(s: State) {
    s.errors.Some? || IsFailure(s.statusCode)
  }

  // ---- build ----

  const TOP_KEYS: set<Key> := {KStatusCode, KPath, KMessage, KData, KTotal, KPagination, KMeta, KHeader, KDebug,
                               KCursor, KIssue, KLinks, KSignature, KReason}

  function PagesRespond(p: Option<PageState>): Dict {
    if p.None? then map[] else
    map[KPage := Int(p.value.page), KPerPage := Int(p.value.perPage), KTotalPages := Int(p.value.totalPages),
        KTotalItems := Int(p.value.totalItems), KIsLast := Bool(p.value.isLast)]
  }

  /** What build stores under a top-level key, if anything. */
  function Cell(rt: Runtime, s: State, k: Key): Option<Value> {
    match k
    case KStatusCode => When(s.statusCode > 0, Int(s.statusCode))
    case KPath => When(!IsEmpty(s.path), Str(s.path))
    case KMessage => When(!IsEmpty(s.message), Str(s.message))
    case KData => When(Present(s.data) && !s.skipBody, Printed(rt, s.data))
    case KTotal => When(s.total >= 0, Int(s.total))
    case KPagination => When(s.pagination.Some?, Obj(PagesRespond(s.pagination)))
    case KMeta => When(s.meta.Some?, Obj(MetaRespond(rt, s.meta)))
    case KHeader => When(s.header.Some?, Obj(HeaderRespond(s.header)))
    case KDebug => When(|s.debug| > 0, Obj(s.debug))
    case KCursor => if s.cursor.Some? then Some(Obj(CursorRespond(s.cursor.value))) else None
    case KIssue => if s.issue.Some? then Some(Obj(IssueRespond(s.issue.value))) else None
    case KLinks => if LinksPresent(s.links) then Some(Obj(LinksRespond(s.links.value))) else None
    case KSignature => if s.signature.Some? then Some(Obj(SignatureRespond(s.signature.value))) else None
    case KReason => if s.reason.Some? then Some(Obj(ReasonRespond(s.reason.value))) else None
    case _ => None
  }

  function Build(rt: Runtime, s: State): Dict {
    map k | k in TOP_KEYS && Cell(rt, s, k).Some? :: Cell(rt, s, k).value
  }

  function Lookup(m: Dict, k: Key): Option<Value> {
    if k in m then Some(m[k]) else None
  }

  lemma BuildCells(rt: Runtime, s: State)
    ensures forall k :: Lookup(Build(rt, s), k) == Cell(rt, s, k)
  {
  }

  lemma NoCell(rt: Runtime, s: State, k: Key)
    requires k !in TOP_KEYS
    ensures Cell(rt, s, k) == None
  {
  }

  lemma SameCells(rt: Runtime, a: State, b: State)
    ensures Build(rt, a) == Build(rt, b) <==> forall k :: Cell(rt, a, k) == Cell(rt, b, k)
  {
    BuildCells(rt, a);
    BuildCells(rt, b);
    if Build(rt, a) == Build(rt, b) {
      forall k
        ensures Cell(rt, a, k) == Cell(rt, b, k)
      {
        assert Lookup(Build(rt, a), k) == Lookup(Build(rt, b), k);
      }
    }
  }

  lemma MetaLookup(rt: Runtime, t: Meta, k: Key)
    requires k in META_KEYS
    ensures Lookup(MetaRespond(rt, Some(t)), k) == MetaCell(rt, t, k)
  {
  }

  lemma SameLookups(a: Dict, b: Dict, ks: set<Key>)
    requires a.Keys <= ks && b.Keys <= ks
    requires forall k :: k in ks ==> Lookup(a, k) == Lookup(b, k)
    ensures a == b
  {
    forall k | k in ks
      ensures k in a <==> k in b
      ensures k in a ==> a[k] == b[k]
    {
      assert Lookup(a, k) == Lookup(b, k);
    }
  }

  lemma SameByLookup(a: Dict, b: Dict)
    ensures a == b <==> forall k :: Lookup(a, k) == Lookup(b, k)
  {
    if forall k :: Lookup(a, k) == Lookup(b, k) {
      SameLookups(a, b, a.Keys + b.Keys);
    }
  }

  // ---- hash256Complex ----

  /**
   * The cache key. Numbers, texts and records of fixed shape are taken to be digested without collision, so the key
   * holds them as they are; of the payload, the debug map and the custom fields it holds hashy's digest, which is the
   * same for some different values (nil and 0, for one). NoHash is the empty text left when hashy refuses a value, and
   * also the key of an empty cache.
   */
  datatype Hash = NoHash
    | HashOf(status: Int64, message: string, data: int, header: Dict, meta: Dict, custom: Option<int>,
             pagination: Dict, debug: int, total: Int64, path: string)

  predicate HashableBody(b: Body) {
    match b
    case Items(items) => Encodable(Arr(items))
    case Records(items) => Encodable(Arr(items))
    case Tree(fields) => EncodableDict(fields)
    case Opaque(_) => false
    case _ => true
  }

  predicate Hashable(s: State) {
    HashableBody(s.data) && EncodableDict(s.debug) && (s.meta.Some? ==> EncodableDict(s.meta.value.customFields))
  }

  /** What meta prints besides the custom fields. */
  function MetaFixed(rt: Runtime, o: Option<Meta>): Dict {
    MetaRespond(rt, o) - {KCustomFields}
  }

  function CustomOf(o: Option<Meta>): Dict {
    if o.Some? then o.value.customFields else map[]
  }

  function CustomDigest(rt: Runtime, o: Option<Meta>): Option<int> {
    When(|CustomOf(o)| > 0, rt.digest(Obj(CustomOf(o))))
  }

  /** The digest of a state whose status is already resolved. */
  function CacheKey(rt: Runtime, s: State): Hash {
    if Hashable(s) then
      HashOf(s.statusCode, s.message, rt.bodyDigest(s.data), HeaderRespond(s.header), MetaFixed(rt, s.meta),
             CustomDigest(rt, s.meta), PagesRespond(s.pagination), rt.digest(Obj(s.debug)), s.total, s.path)
    else NoHash
  }

  // ---- StatusCode and autoAdjust ----

  /** StatusCode: a status that is not set yet is taken from the header. */
  function ResolveStatus(s: State): State {
    if s.header.Some? && s.statusCode <= 0 then s.(statusCode := s.header.value.code) else s
  }

  /** The allocation id and the random texts one call to autoAdjust may draw. */
  datatype Seed = Seed(errId: nat, issueId: string, fingerprint: string)

  function NewIssue(e: Err, seed: Seed): Issue {
    Issue(seed.issueId, seed.fingerprint, Message(InnerMost(e)))
  }

  /** The message of a failure, or the standard one. */
  function ErrorText(rt: Runtime, s: State): string {
    if IsEmpty(s.message) then rt.noMessage(s.statusCode) else s.message
  }

  /** A failure without an error gets one. */
  function FillError(rt: Runtime, s: State, seed: Seed): State {
    if IsFailure(s.statusCode) && s.errors.None?
    then s.(errors := Some(Underlying(seed.errId, ErrorText(rt, s))))
    else s
  }

  /** A success with an error becomes 500, and a debug entry says so. */
  function OverrideStatus(rt: Runtime, s: State): State {
    if s.errors.Some? && IsSuccess(s.statusCode)
    then s.(debug := s.debug[KStatusOverride := Str(rt.overrideNote(s.statusCode))],
            header := Some(INTERNAL_SERVER_ERROR), statusCode := 500)
    else s
  }

  /** An error without an issue gets one. */
  function FillIssue(s: State, seed: Seed): State {
    if s.errors.Some? && s.issue.None? then s.(issue := Some(NewIssue(s.errors.value, seed))) else s
  }

  function Adjust(rt: Runtime, s: State, seed: Seed): State {
    FillIssue(OverrideStatus(rt, FillError(rt, s, seed)), seed)
  }

  // ---- The cached map ----

  /**
   * build does not copy the debug map, the custom fields and the header map of the signature: a built map refers to
   * the map of the wrapper itself. What such a reference leads to: nothing, if the cell was not printed; the map that
   * the wrapper still has; or one that it has given up since, with these contents.
   */
  datatype Held = Absent | Live | Left(d: Dict)

  /** A built map: its cells as they were built, and the three references. */
  datatype Image = Image(frozen: Dict, debug: Held, custom: Held, texts: Held)

  function TextsOf(o: Option<Signature>): Dict {
    if o.Some? then TextDict(o.value.headers) else map[]
  }

  function Hold(printed: bool): Held {
    if printed then Live else Absent
  }

  /** What build returns. */
  function Taken(rt: Runtime, s: State): Image {
    Image(Build(rt, s), Hold(|s.debug| > 0), Hold(|CustomOf(s.meta)| > 0), Hold(|TextsOf(s.signature)| > 0))
  }

  function HeldCell(h: Held, now: Dict): Option<Value> {
    match h
    case Absent => None
    case Live => Some(Obj(now))
    case Left(d) => Some(Obj(d))
  }

  function FieldsAt(m: Dict, k: Key): Dict {
    if k in m && m[k].Obj? then m[k].fields else map[]
  }

  /** What a built map shows under a top-level key while the wrapper is in state s. */
  function ReadCell(c: Image, s: State, k: Key): Option<Value> {
    match k
    case KDebug => HeldCell(c.debug, s.debug)
    case KMeta =>
      When(k in c.frozen, Obj(Put(FieldsAt(c.frozen, k), KCustomFields, HeldCell(c.custom, CustomOf(s.meta)))))
    case KSignature =>
      When(k in c.frozen, Obj(Put(FieldsAt(c.frozen, k), KHeaders, HeldCell(c.texts, TextsOf(s.signature)))))
    case _ => Lookup(c.frozen, k)
  }

  function Read(c: Image, s: State): Dict {
    map k | k in TOP_KEYS && ReadCell(c, s, k).Some? :: ReadCell(c, s, k).value
  }

  /** Which of the three maps a call gives up for another one. */
  datatype GivenUp = GivenUp(debug: bool, custom: bool, texts: bool)

  const NOTHING := GivenUp(false, false, false)

  function LeftBehind(h: Held, d: Dict, gone: bool): Held {
    if gone && h.Live? then Left(d) else h
  }

  function Leave(o: Option<Image>, s: State, g: GivenUp): Option<Image> {
    if o.None? then None
    else Some(o.value.(debug := LeftBehind(o.value.debug, s.debug, g.debug),
                       custom := LeftBehind(o.value.custom, CustomOf(s.meta), g.custom),
                       texts := LeftBehind(o.value.texts, TextsOf(s.signature), g.texts)))
  }

  // ---- The state with its cache ----

  datatype Snapshot = Snapshot(st: State, cached: Option<Image>, hash: Hash)

  function Uncached(s: State): Snapshot {
    Snapshot(s, None, NoHash)
  }

  /** The entry that autoAdjust writes goes into a new map if there is none to write it into. */
  function AdjustGivesUp(s: State): GivenUp {
    GivenUp(s.errors.Some? && IsSuccess(s.statusCode) && |s.debug| == 0, false, false)
  }

  lemma FillErrorGivesUp(rt: Runtime, o: Option<Image>, s: State, seed: Seed)
    ensures var t := FillError(rt, s, seed);
            AdjustGivesUp(t) == AdjustGivesUp(s) && Leave(o, t, AdjustGivesUp(t)) == Leave(o, s, AdjustGivesUp(s))
  {
  }

  /** The state a render works on: autoAdjust, then the StatusCode call inside hash256Complex. */
  function Rendering(rt: Runtime, s: State, seed: Seed): State {
    ResolveStatus(Adjust(rt, s, seed))
  }

  predicate Hit(rt: Runtime, x: Snapshot, s: State) {
    x.hash == CacheKey(rt, s) && x.cached.Some?
  }

  /** Respond: the new snapshot, and the returned map as it reads at that moment. */
  function Render(rt: Runtime, x: Snapshot, seed: Seed): (Snapshot, Dict) {
    var s := Rendering(rt, x.st, seed);
    var kept := Leave(x.cached, x.st, AdjustGivesUp(x.st));
    if Hit(rt, x, s) then (Snapshot(s, kept, x.hash), Read(kept.value, s))
    else (Snapshot(s, Some(Taken(rt, s)), CacheKey(rt, s)), Build(rt, s))
  }

  function Without(m: Dict, ks: seq<Key>): Dict {
    map k | k in m && !(k in ks && !BlankKey(k)) :: m[k]
  }

  // ---- The fluent calls ----

  datatype MetaEdit =
    | MetaApiVersion(v: string) | MetaRequestID(v: string) | MetaLocale(v: string) | MetaTime(t: Instant)
    | MetaCustomFields(d: Dict) | MetaCustomKV(k: Key, x: Value) | MetaDelta(delta: Decimal)
    | MetaIncrease | MetaDecrease

  function EditMeta(o: Option<Meta>, e: MetaEdit): Meta {
    var m := if o.Some? then o.value else EMPTY_META;
    match e
    case MetaApiVersion(v) => m.(apiVersion := v)
    case MetaRequestID(v) => m.(requestID := v)
    case MetaLocale(v) => m.(locale := v)
    case MetaTime(t) => m.(requestedTime := t)
    case MetaCustomFields(d) => m.(customFields := d)
    case MetaCustomKV(k, x) => m.(customFields := m.customFields[k := x])
    case MetaDelta(d) => m.(deltaValue := d, deltaCnt := Wrap64(m.deltaCnt + 1))
    case MetaIncrease => m.(deltaCnt := Wrap64(m.deltaCnt + 1))
    case MetaDecrease => m.(deltaCnt := Wrap64(m.deltaCnt - 1))
  }

  datatype CursorEdit =
    | CursorNext(v: string) | CursorPrev(v: string) | CursorHasNext(b: bool) | CursorHasPrev(b: bool)
    | CursorLimit(n: Int64)

  function EditCursor(o: Option<Cursor>, e: CursorEdit): Cursor {
    var c := if o.Some? then o.value else EMPTY_CURSOR;
    match e
    case CursorNext(v) => c.(next := v)
    case CursorPrev(v) => c.(previous := v)
    case CursorHasNext(b) => c.(hasNext := b)
    case CursorHasPrev(b) => c.(hasPrevious := b)
    case CursorLimit(n) => c.(limit := n)
  }

  datatype ReasonEdit = ReasonCode(v: string) | ReasonCategory(v: string)

  function EditReason(rt: Runtime, o: Option<Reason>, e: ReasonEdit): Reason {
    var r := if o.Some? then o.value else EMPTY_REASON;
    match e
    case ReasonCode(v) =>
      Reason(v, if rt.reasonCategory(v).Some? then rt.reasonCategory(v).value else r.category)
    case ReasonCategory(v) => r.(category := v)
  }

  function EditPages(o: Option<PageState>, op: PageOp): PageState {
    ApplyPage(if o.Some? then o.value else ZERO_PAGES, op)
  }

  datatype Part = PartIssue | PartCursor | PartDebug | PartLinks | PartSignature | PartReason

  function Release(s: State, p: Part): State {
    match p
    case PartIssue => s.(issue := None)
    case PartCursor => s.(cursor := None)
    case PartDebug => s.(debug := map[])
    case PartLinks => s.(links := None)
    case PartSignature => s.(signature := None)
    case PartReason => s.(reason := None)
  }

  const ZERO_STATE: State :=
    State(0, 0, "", Nil, "", None, None, None, None, None, None, None, None, map[], None, false)

  function NewState(meta: Meta): State {
    ZERO_STATE.(header := Some(PROCESSING), meta := Some(meta))
  }

  function ResetState(meta: Meta): State {
    NewState(meta).(header := None)
  }

  function LinkItems(ls: Option<LinkMap>): LinkMap {
    if ls.Some? then ls.value else map[]
  }

  /** One public call. An option argument of None is Go's nil. */
  datatype Op =
    | WithStatusCode(code: Int64) | WithTotal(n: Int64) | WithMessage(text: string) | WithBody(data: Body)
    | WithPath(text: string) | WithHeader(header: Option<Header>) | WithMeta(meta: Option<Meta>)
    | WithMetaEdit(medit: MetaEdit) | WithPagination(pages: Option<PageState>) | WithPageEdit(pop: PageOp)
    | WithCursor(cursor: Option<Cursor>) | WithCursorEdit(cedit: CursorEdit)
    | WithDebugging(dict: Dict) | WithDebuggingKV(key: Key, val: Value)
    | WithErrors(err: Option<Err>)  // WithError, WithErrorAck, AppendError and the other error setters
    | AppendErrs(errs: seq<Option<Err>>, id: nat) | BindCause(id: nat)
    | WithSkipBody(skip: bool) | WithIssue(issue: Option<Issue>) | WithSignature(sig: Option<Signature>)
    | WithReasonEdit(redit: ReasonEdit)
    | WithLinks(links: Option<LinkMap>) | WithLinkObject(rel: Key, link: Option<Link>)
    | WithReason(reason: Option<Reason>)
    | ReleasePart(part: Part) | Reset(defaults: Meta)
    | ReadStatusCode | AutoAdjust(seed: Seed) | Respond(seed: Seed)

  function StatusHeader(rt: Runtime, code: Int64): Header {
    Header(ClampCode(code), rt.statusText(ClampCode(code)), "", "")
  }

  function BoundErrors(s: State, id: nat): Option<Err> {
    if IsEmpty(s.message) then s.errors
    else if s.errors.None? then Some(Underlying(id, s.message))
    else Construct(AppendAck(s.message), s.errors, id)
  }

  /** The calls that leave the cache alone. */
  function Edit(rt: Runtime, s: State, op: Op): State {
    match op
    case WithStatusCode(code) => s.(statusCode := ClampCode(code), header := Some(StatusHeader(rt, code)))
    case WithTotal(n) => s.(total := n)
    case WithMessage(t) => s.(message := t)
    case WithBody(d) => s.(data := d)
    case WithPath(t) => s.(path := t)
    case WithHeader(h) => if h.Some? then s.(header := h, statusCode := h.value.code) else s
    case WithMeta(m) => s.(meta := m)
    case WithMetaEdit(e) => s.(meta := Some(EditMeta(s.meta, e)))
    case WithPagination(p) => s.(pagination := p)
    case WithPageEdit(op) => s.(pagination := Some(EditPages(s.pagination, op)))
    case WithCursor(c) => s.(cursor := c)
    case WithCursorEdit(e) => s.(cursor := Some(EditCursor(s.cursor, e)))
    case WithDebugging(d) => s.(debug := d)
    case WithDebuggingKV(k, v) => s.(debug := s.debug[k := v])
    case WithErrors(e) => s.(errors := e)
    case AppendErrs(es, id) => s.(errors := AppendAll(s.errors, es, id).0)
    case BindCause(id) => s.(errors := BoundErrors(s, id))
    case WithSkipBody(b) => s.(skipBody := b)
    case WithIssue(i) => if i.Some? then s.(issue := i) else s
    case WithSignature(g) => if g.Some? then s.(signature := g) else s
    case WithReasonEdit(e) => s.(reason := Some(EditReason(rt, s.reason, e)))
    case ReadStatusCode => ResolveStatus(s)
    case AutoAdjust(seed) => Adjust(rt, s, seed)
    case _ => s
  }

  /** The maps that a call replaces: an entry goes into the map that is there, unless that one is nil or empty. */
  function GivesUp(s: State, op: Op): GivenUp {
    match op
    case WithDebugging(_) => NOTHING.(debug := true)
    case WithDebuggingKV(_, _) => NOTHING.(debug := |s.debug| == 0)
    case WithMeta(_) => NOTHING.(custom := true)
    case WithMetaEdit(e) => NOTHING.(custom := e.MetaCustomFields? || (e.MetaCustomKV? && |CustomOf(s.meta)| == 0))
    case WithSignature(g) => NOTHING.(texts := g.Some?)
    case AutoAdjust(_) => AdjustGivesUp(s)
    case _ => NOTHING
  }

  /** The calls that end in resetCache (with a nil argument they return early), and Reset. */
  function Step(rt: Runtime, x: Snapshot, op: Op): Snapshot {
    match op
    case WithLinks(ls) => if ls.Some? then Uncached(x.st.(links := ls)) else x
    case WithLinkObject(rel, l) =>
      if l.Some? then Uncached(x.st.(links := Some(LinkItems(x.st.links)[rel := l]))) else x
    case WithReason(r) => if r.Some? then Uncached(x.st.(reason := r)) else x
    case ReleasePart(p) => Uncached(Release(x.st, p))
    case Reset(m) => Uncached(ResetState(m))
    case Respond(seed) => Render(rt, x, seed).0
    case _ => x.(st := Edit(rt, x.st, op), cached := Leave(x.cached, x.st, GivesUp(x.st, op)))
  }
}
