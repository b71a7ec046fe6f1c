/** The wrapper object of replify.go: every method is proved against the step Envelope gives for it. */
module Wrappers {
  import opened Values
  import opened Library
  import opened Parts
  import opened Bodies
  import opened Pages
  import opened ErrorChain
  import opened Envelope

  /** The Go maps that a wrapper and a map it has built may both refer to. */
  class DebugMap {
    var entries: Dict

    constructor (d: Dict)
      ensures entries == d
    {
      entries := d;
    }
  }

  class CustomMap {
    var entries: Dict

    constructor (d: Dict)
      ensures entries == d
    {
      entries := d;
    }
  }

  class TextMap {
    var entries: map<Key, string>

    constructor (m: map<Key, string>)
      ensures entries == m
    {
      entries := m;
    }
  }

  lemma ResetIs(defaults: Meta, s: State)
    requires s.statusCode == 0 && s.total == 0 && s.message == "" && s.data == Nil && s.path == "" && s.header.None?
    requires s.pagination.None? && s.cursor.None? && s.issue.None? && s.signature.None? && s.reason.None?
    requires s.links.None? && s.debug == map[] && s.errors.None? && !s.skipBody && s.meta == Some(defaults)
    ensures s == ResetState(defaults)
  {
  }

  lemma HitRenders(rt: Runtime, x: Snapshot, seed: Seed, y: Snapshot)
    requires y.st == Rendering(rt, x.st, seed) && y.cached == Leave(x.cached, x.st, AdjustGivesUp(x.st))
    requires x.cached.Some? && y.hash == x.hash == CacheKey(rt, y.st)
    ensures y.cached.Some? && (y, Read(y.cached.value, y.st)) == Render(rt, x, seed)
  {
  }

  lemma MissRenders(rt: Runtime, x: Snapshot, seed: Seed, y: Snapshot)
    requires y == Snapshot(Rendering(rt, x.st, seed), Some(Taken(rt, y.st)), CacheKey(rt, y.st))
    requires !Hit(rt, x, y.st)
    ensures (y, Build(rt, y.st)) == Render(rt, x, seed)
  {
  }

  /** The place of a field in the order in which build visits them. */
  function Rank(k: Key): nat {
    match k
    case KStatusCode => 0 case KPath => 1 case KMessage => 2 case KData => 3 case KTotal => 4
    case KPagination => 5 case KMeta => 6 case KHeader => 7 case KDebug => 8 case KCursor => 9
    case KIssue => 10 case KLinks => 11 case KSignature => 12 case KReason => 13 case _ => 14
  }

  function KeyAt(n: nat): Key
    requires n < 14
  {
    [KStatusCode, KPath, KMessage, KData, KTotal, KPagination, KMeta, KHeader, KDebug, KCursor, KIssue, KLinks,
     KSignature, KReason][n]
  }

  lemma RankUnique(k: Key)
    requires k in TOP_KEYS
    ensures Rank(k) < 14 && KeyAt(Rank(k)) == k
  {
  }

  ghost function FirstKeys(n: nat): set<Key> {
    set k | k in TOP_KEYS && Rank(k) < n
  }

  ghost function Restricted(rt: Runtime, s: State, ks: set<Key>): Dict {
    map k | k in ks && Cell(rt, s, k).Some? :: Cell(rt, s, k).value
  }

  /** What build has stored after n fields. */
  ghost function Prefix(rt: Runtime, s: State, n: nat): Dict {
    Restricted(rt, s, FirstKeys(n))
  }

  lemma NextRank(n: nat, k: Key)
    requires k in TOP_KEYS && Rank(k) == n
    ensures FirstKeys(n + 1) == FirstKeys(n) + {k}
  {
    RankUnique(k);
    forall j | j in TOP_KEYS && Rank(j) == n
      ensures j == k
    {
      RankUnique(j);
    }
  }

  lemma StoreOne(rt: Runtime, s: State, ks: set<Key>, k: Key)
    requires k !in ks
    ensures Put(Restricted(rt, s, ks), k, Cell(rt, s, k)) == Restricted(rt, s, ks + {k})
  {
  }

  lemma Visit(rt: Runtime, s: State, n: nat, k: Key)
    requires k in TOP_KEYS && Rank(k) == n
    ensures Put(Prefix(rt, s, n), k, Cell(rt, s, k)) == Prefix(rt, s, n + 1)
  {
    NextRank(n, k);
    StoreOne(rt, s, FirstKeys(n), k);
  }

  lemma AllVisited(rt: Runtime, s: State)
    ensures Prefix(rt, s, 14) == Build(rt, s)
  {
    forall k | k in TOP_KEYS
      ensures Rank(k) < 14
    {
      RankUnique(k);
    }
  }

  lemma TextDictEmpty(m: map<Key, string>)
    ensures |TextDict(m)| == 0 <==> |m| == 0
  {
    if |m| > 0 {
      var k :| k in m;
      assert k in TextDict(m);
    } else {
      assert TextDict(m) == map[];
    }
  }

  class Wrapper {
    var cachedWrap: Option<Dict>    // the cells of the cached map; three of them refer to the maps below
    var cachedDebug: DebugMap?
    var cachedCustom: CustomMap?
    var cachedTexts: TextMap?
    var cacheHash: Hash

    var statusCode: Int64
    var total: Int64
    var message: string
    var data: Body
    var path: string
    var header: Option<Header>
    var meta: Option<Meta>
    var custom: CustomMap?          // the customFields of meta; that field of the record is unused
    var pagination: Option<PageState>
    var cursor: Option<Cursor>
    var issue: Option<Issue>
    var signature: Option<Signature>
    var texts: TextMap?             // the headers of the signature; that field of the record is unused
    var reason: Option<Reason>
    var links: Option<LinkMap>
    var debug: DebugMap?
    var errors: Option<Err>
    var skipBody: bool

    function DebugNow(): Dict
      reads this`debug, debug
    {
      if debug == null then map[] else debug.entries
    }

    function MetaNow(): Option<Meta>
      reads this`meta, this`custom, custom
    {
      if meta.None? then None
      else Some(meta.value.(customFields := if custom == null then map[] else custom.entries))
    }

    function SignatureNow(): Option<Signature>
      reads this`signature, this`texts, texts
    {
      if signature.None? then None
      else Some(signature.value.(headers := if texts == null then map[] else texts.entries))
    }

    function Fields(): State
      reads this, debug, custom, texts
    {
      State(statusCode, total, message, data, path, header, MetaNow(), pagination, cursor, issue, SignatureNow(),
            reason, links, DebugNow(), errors, skipBody)
    }

    function HeldDebug(): Held
      reads this`cachedDebug, this`debug, cachedDebug
    {
      if cachedDebug == null then Absent else if cachedDebug == debug then Live else Left(cachedDebug.entries)
    }

    function HeldCustom(): Held
      reads this`cachedCustom, this`meta, this`custom, cachedCustom
    {
      if cachedCustom == null then Absent
      else if meta.Some? && cachedCustom == custom then Live
      else Left(cachedCustom.entries)
    }

    function HeldTexts(): Held
      reads this`cachedTexts, this`signature, this`texts, cachedTexts
    {
      if cachedTexts == null then Absent
      else if signature.Some? && cachedTexts == texts then Live
      else Left(TextDict(cachedTexts.entries))
    }

    function Cached(): Option<Image>
      reads this`cachedWrap, this`cachedDebug, this`debug, cachedDebug
      reads this`cachedCustom, this`meta, this`custom, cachedCustom
      reads this`cachedTexts, this`signature, this`texts, cachedTexts
    {
      if cachedWrap.None? then None else Some(Image(cachedWrap.value, HeldDebug(), HeldCustom(), HeldTexts()))
    }

    function Snap(): Snapshot
      reads this, debug, custom, texts, cachedDebug, cachedCustom, cachedTexts
    {
      Snapshot(Fields(), Cached(), cacheHash)
    }

    /** The zero value of the struct. */
    constructor Zero()
      ensures Snap() == Uncached(ZERO_STATE)
      ensures debug == null && custom == null && texts == null
    {
      cachedWrap, cachedDebug, cachedCustom, cachedTexts, cacheHash := None, null, null, null, NoHash;
      statusCode, total, message, data, path := 0, 0, "", Nil, "";
      header, meta, pagination, cursor, issue := None, None, None, None, None;
      signature, reason, links, errors, skipBody := None, None, None, None, false;
      debug, custom, texts := null, null, null;
    }

    /** New, with the meta that defaultMetaValues made. */
    constructor New(defaults: Meta)
      ensures Snap() == Uncached(NewState(defaults))
    {
      cachedWrap, cachedDebug, cachedCustom, cachedTexts, cacheHash := None, null, null, null, NoHash;
      statusCode, total, message, data, path := 0, 0, "", Nil, "";
      header, meta, pagination, cursor, issue := Some(PROCESSING), Some(defaults), None, None, None;
      signature, reason, links, errors, skipBody := None, None, None, None, false;
      debug, texts := null, null;
      custom := new CustomMap(defaults.customFields);
    }

    method ResetMeta(defaults: Meta)
      modifies this`meta, this`custom
      ensures MetaNow() == Some(defaults)
    {
      meta := Some(defaults);
      custom := new CustomMap(defaults.customFields);
    }

    /** Every field but the cache. */
    method ClearFields(defaults: Meta)
      modifies this`statusCode, this`total, this`message, this`data, this`path, this`header, this`meta, this`custom
      modifies this`pagination, this`cursor, this`issue, this`signature, this`reason, this`links, this`debug
      modifies this`errors, this`skipBody
      ensures Fields() == ResetState(defaults)
    {
      ClearResponse();
      ClearAttachments();
      ResetMeta(defaults);
      ResetIs(defaults, Fields());
    }

    method ResetAll(defaults: Meta)
      modifies this
      ensures Snap() == Uncached(ResetState(defaults))
    {
      ResetCache();
      ClearFields(defaults);
    }

    method ClearResponse()
      modifies this`statusCode, this`total, this`message, this`data, this`path, this`header, this`pagination
      ensures statusCode == 0 && total == 0 && message == "" && data == Nil && path == ""
      ensures header == None && pagination == None
    {
      statusCode, total, message, data, path := 0, 0, "", Nil, "";
      header, pagination := None, None;
    }

    method ClearAttachments()
      modifies this`cursor, this`issue, this`signature, this`reason, this`links, this`debug, this`errors, this`skipBody
      ensures cursor == None && issue == None && signature == None && reason == None
      ensures links == None && debug == null && errors == None && !skipBody
    {
      cursor, issue, signature, reason, links := None, None, None, None, None;
      debug, errors, skipBody := null, None, false;
    }

    method ResetCache()
      modifies this`cachedWrap, this`cacheHash
      ensures cachedWrap == None && cacheHash == NoHash
    {
      cachedWrap := None;
      cacheHash := NoHash;
    }

    // ---- Setters that leave the cache alone ----

    method SetStatusCode(rt: Runtime, code: Int64)
      modifies this
      ensures Snap() == Step(rt, old(Snap()), WithStatusCode(code))
    {
      var c: Int64 := code;
      if c < 100 || c > 599 {
        c := 500;
      }
      statusCode := c;
      header := Some(Header(c, rt.statusText(c), "", ""));
    }

    method SetHeader(rt: Runtime, v: Option<Header>)
      modifies this
      ensures Snap() == Step(rt, old(Snap()), WithHeader(v))
    {
      if v.None? {
        return;
      }
      header := v;
      statusCode := v.value.code;
    }

    method SetMessage(rt: Runtime, v: string)
      modifies this
      ensures Snap() == Step(rt, old(Snap()), WithMessage(v))
    {
      message := v;
    }

    method SetBody(rt: Runtime, v: Body)
      modifies this
      ensures Snap() == Step(rt, old(Snap()), WithBody(v))
    {
      data := v;
    }

    /** Meta() replaces a nil meta; the new one has no custom fields. */
    method NeedMeta()
      modifies this`meta, this`custom
      ensures meta.Some? && MetaNow() == Some(if old(meta.Some?) then old(MetaNow()).value else EMPTY_META)
      ensures old(meta.Some?) ==> meta == old(meta) && custom == old(custom)
      ensures old(meta.None?) ==> custom == null
      ensures Cached() == old(Cached())
    {
      if meta.None? {
        meta := Some(EMPTY_META);
        custom := null;
      }
    }

    method PutCustom(k: Key, x: Value)
      requires meta.Some?
      modifies this`custom, custom
      ensures MetaNow() == Some(EditMeta(old(MetaNow()), MetaCustomKV(k, x)))
      ensures Cached() == Leave(old(Cached()), old(Fields()), NOTHING.(custom := |old(CustomOf(MetaNow()))| == 0))
    {
      if custom == null || |custom.entries| == 0 {
        custom := new CustomMap(map[]);
      }
      custom.entries := custom.entries[k := x];
    }

    method PlaceCustom(d: Dict)
      requires meta.Some?
      modifies this`custom
      ensures MetaNow() == Some(EditMeta(old(MetaNow()), MetaCustomFields(d)))
      ensures Cached() == Leave(old(Cached()), old(Fields()), NOTHING.(custom := true))
    {
      custom := new CustomMap(d);
    }

    /** The setters of meta that are no setters of custom fields. */
    static method EditedMeta(start: Meta, e: MetaEdit) returns (m: Meta)
      requires !e.MetaCustomFields? && !e.MetaCustomKV?
      ensures m == EditMeta(Some(start), e)
    {
      m := start;
      match e {
        case MetaApiVersion(v) => m := m.(apiVersion := v);
        case MetaRequestID(v) => m := m.(requestID := v);
        case MetaLocale(v) => m := m.(locale := v);
        case MetaTime(t) => m := m.(requestedTime := t);
        case MetaDelta(d) =>
          m := m.(deltaValue := d);
          m := m.(deltaCnt := Wrap64(m.deltaCnt + 1));
        case MetaIncrease => m := m.(deltaCnt := Wrap64(m.deltaCnt + 1));
        case MetaDecrease => m := m.(deltaCnt := Wrap64(m.deltaCnt - 1));
      }
    }

    method EditPlainMeta(e: MetaEdit)
      requires meta.Some? && !e.MetaCustomFields? && !e.MetaCustomKV?
      modifies this`meta
      ensures MetaNow() == Some(EditMeta(old(MetaNow()), e)) && Cached() == old(Cached())
    {
      var m := EditedMeta(meta.value, e);
      meta := Some(m);
    }

    method ChangeOwnMeta(e: MetaEdit)
      requires meta.Some?
      modifies this`meta, this`custom, custom
      ensures MetaNow() == Some(EditMeta(old(MetaNow()), e))
      ensures Cached() == Leave(old(Cached()), old(Fields()), GivesUp(old(Fields()), WithMetaEdit(e)))
    {
      match e {
        case MetaCustomFields(d) => PlaceCustom(d);
        case MetaCustomKV(k, x) => PutCustom(k, x);
        case _ => EditPlainMeta(e);
      }
    }

    method ChangeMeta(e: MetaEdit)
      modifies this`meta, this`custom, custom
      ensures MetaNow() == Some(EditMeta(old(MetaNow()), e))
      ensures Cached() == Leave(old(Cached()), old(Fields()), GivesUp(old(Fields()), WithMetaEdit(e)))
    {
      NeedMeta();
      ChangeOwnMeta(e);
    }

    method EditMetaField(rt: Runtime, e: MetaEdit)
      modifies this, custom
      ensures Snap() == Step(rt, old(Snap()), WithMetaEdit(e))
    {
      ChangeMeta(e);
    }

    static method EditedPages(start: PageState, op: PageOp) returns (v: PageState)
      ensures v == ApplyPage(start, op)
    {
      var p := new Pagination.Of(start);
      p.Set(op);
      v := p.Value();
    }

    method EditPagination(rt: Runtime, op: PageOp)
      modifies this`pagination
      ensures Snap() == Step(rt, old(Snap()), WithPageEdit(op))
    {
      var v := EditedPages(if pagination.None? then ZERO_PAGES else pagination.value, op);
      pagination := Some(v);
    }

    method SetCursor(rt: Runtime, v: Option<Cursor>)
      modifies this
      ensures Snap() == Step(rt, old(Snap()), WithCursor(v))
    {
      cursor := v;
    }

    static method EditedCursor(start: Cursor, e: CursorEdit) returns (c: Cursor)
      ensures c == EditCursor(Some(start), e)
    {
      c := start;
      match e {
        case CursorNext(v) => c := c.(next := v);
        case CursorPrev(v) => c := c.(previous := v);
        case CursorHasNext(b) => c := c.(hasNext := b);
        case CursorHasPrev(b) => c := c.(hasPrevious := b);
        case CursorLimit(n) => c := c.(limit := n);
      }
    }

    method EditCursorField(rt: Runtime, e: CursorEdit)
      modifies this`cursor
      ensures Snap() == Step(rt, old(Snap()), WithCursorEdit(e))
    {
      var c := EditedCursor(if cursor.None? then EMPTY_CURSOR else cursor.value, e);
      cursor := Some(c);
    }

    method SetDebugging(rt: Runtime, d: Dict)
      modifies this`debug
      ensures Snap() == Step(rt, old(Snap()), WithDebugging(d))
    {
      debug := new DebugMap(d);
    }

    method PutDebug(k: Key, v: Value)
      modifies this`debug, debug
      ensures DebugNow() == old(DebugNow())[k := v]
      ensures Cached() == Leave(old(Cached()), old(Fields()), NOTHING.(debug := |old(DebugNow())| == 0))
    {
      if debug == null || |debug.entries| == 0 {
        debug := new DebugMap(map[]);
      }
      debug.entries := debug.entries[k := v];
    }

    method SetDebuggingKV(rt: Runtime, k: Key, v: Value)
      modifies this, debug
      ensures Snap() == Step(rt, old(Snap()), WithDebuggingKV(k, v))
    {
      PutDebug(k, v);
    }

    method SetErrors(rt: Runtime, e: Option<Err>)
      modifies this
      ensures Snap() == Step(rt, old(Snap()), WithErrors(e))
    {
      errors := e;
    }

    method AppendErrorList(rt: Runtime, errs: seq<Option<Err>>, nextId: nat)
      modifies this
      ensures Snap() == Step(rt, old(Snap()), AppendErrs(errs, nextId))
    {
      if |errs| == 0 {
        return;
      }
      var r, id := AppendErrors(errors, errs, nextId);
      errors := r;
    }

    method BindMessage(rt: Runtime, id: nat)
      modifies this
      ensures Snap() == Step(rt, old(Snap()), BindCause(id))
    {
      if !IsEmpty(message) {
        if errors.None? {
          errors := Some(Underlying(id, message));
        } else {
          errors := Construct(AppendAck(message), errors, id);
        }
      }
    }

    method SetSkipBody(rt: Runtime, skip: bool)
      modifies this
      ensures Snap() == Step(rt, old(Snap()), WithSkipBody(skip))
    {
      skipBody := skip;
    }

    method SetIssue(rt: Runtime, i: Option<Issue>)
      modifies this`issue
      ensures Snap() == Step(rt, old(Snap()), WithIssue(i))
    {
      if i.None? {
        return;
      }
      issue := i;
    }

    method SetSignature(rt: Runtime, s: Option<Signature>)
      modifies this`signature, this`texts
      ensures Snap() == Step(rt, old(Snap()), WithSignature(s))
    {
      if s.Some? {
        PlaceSignature(s.value);
      }
    }

    method PlaceSignature(g: Signature)
      modifies this`signature, this`texts
      ensures Snap() == Snapshot(old(Fields()).(signature := Some(g)),
                                 Leave(old(Cached()), old(Fields()), NOTHING.(texts := true)), old(cacheHash))
    {
      signature := Some(g);
      texts := null;
      if |g.headers| > 0 {
        texts := new TextMap(g.headers);
      }
    }

    static method EditedReason(rt: Runtime, start: Reason, e: ReasonEdit) returns (r: Reason)
      ensures r == EditReason(rt, Some(start), e)
    {
      r := start;
      match e {
        case ReasonCode(v) =>
          var c := rt.reasonCategory(v);
          if c.Some? {
            r := r.(category := c.value);
          }
          r := r.(code := v);
        case ReasonCategory(v) => r := r.(category := v);
      }
    }

    method ChangeReason(rt: Runtime, e: ReasonEdit)
      modifies this`reason
      ensures reason == Some(EditReason(rt, old(reason), e))
    {
      var r := EditedReason(rt, if reason.None? then EMPTY_REASON else reason.value, e);
      reason := Some(r);
    }

    method EditReasonField(rt: Runtime, e: ReasonEdit)
      modifies this`reason
      ensures Snap() == Step(rt, old(Snap()), WithReasonEdit(e))
    {
      ChangeReason(rt, e);
    }

    // ---- Setters that reset the cache ----

    method SetLinks(rt: Runtime, ls: Option<LinkMap>)
      modifies this`links, this`cachedWrap, this`cacheHash
      ensures Snap() == Step(rt, old(Snap()), WithLinks(ls))
    {
      if ls.None? {
        return;
      }
      PlaceLinks(ls);
    }

    method PlaceLinks(ls: Option<LinkMap>)
      modifies this`links, this`cachedWrap, this`cacheHash
      ensures Snap() == Uncached(old(Fields()).(links := ls))
    {
      links := ls;
      ResetCache();
    }

    method SetLinkObject(rt: Runtime, rel: Key, lnk: Option<Link>)
      modifies this`links, this`cachedWrap, this`cacheHash
      ensures Snap() == Step(rt, old(Snap()), WithLinkObject(rel, lnk))
    {
      if lnk.None? {
        return;
      }
      StoreLink(rel, lnk);
    }

    method StoreLink(rel: Key, lnk: Option<Link>)
      modifies this`links, this`cachedWrap, this`cacheHash
      ensures Snap() == Uncached(old(Fields()).(links := Some(LinkItems(old(links))[rel := lnk])))
    {
      if links.None? || |links.value| == 0 {
        links := Some(map[]);
      }
      links := Some(links.value[rel := lnk]);
      ResetCache();
    }

    method SetReason(rt: Runtime, r: Option<Reason>)
      modifies this`reason, this`cachedWrap, this`cacheHash
      ensures Snap() == Step(rt, old(Snap()), WithReason(r))
    {
      if r.None? {
        return;
      }
      PlaceReason(r);
    }

    method PlaceReason(r: Option<Reason>)
      modifies this`reason, this`cachedWrap, this`cacheHash
      ensures Snap() == Uncached(old(Fields()).(reason := r))
    {
      reason := r;
      ResetCache();
    }

    method ReleaseField(p: Part)
      modifies this
      ensures Snap() == Uncached(Release(old(Fields()), p))
    {
      ClearPart(p);
      ResetCache();
    }

    method ClearPart(p: Part)
      modifies this`issue, this`cursor, this`debug, this`links, this`signature, this`reason
      ensures Fields() == Release(old(Fields()), p)
    {
      match p {
        case PartIssue => issue := None;
        case PartCursor => cursor := None;
        case PartDebug => debug := null;
        case PartLinks => links := None;
        case PartSignature => signature := None;
        case PartReason => reason := None;
      }
    }

    // ---- Rendering ----

    method StatusCode() returns (code: Int64)
      modifies this`statusCode
      ensures Fields() == ResolveStatus(old(Fields())) && code == statusCode && Cached() == old(Cached())
    {
      if header.Some? && statusCode <= 0 {
        statusCode := header.value.code;
      }
      code := statusCode;
    }

    method FillErrorField(rt: Runtime, seed: Seed)
      modifies this`errors
      ensures Fields() == FillError(rt, old(Fields()), seed) && Cached() == old(Cached())
    {
      if IsFailure(statusCode) && errors.None? {
        if !IsEmpty(message) {
          errors := Some(Underlying(seed.errId, message));
        } else {
          errors := Some(Underlying(seed.errId, rt.noMessage(statusCode)));
        }
      }
    }

    method PlaceError()
      modifies this`header, this`statusCode
      ensures Fields() == old(Fields()).(header := Some(INTERNAL_SERVER_ERROR), statusCode := 500)
      ensures Cached() == old(Cached())
    {
      header := Some(INTERNAL_SERVER_ERROR);
      statusCode := INTERNAL_SERVER_ERROR.code;
    }

    method OverrideStatusField(rt: Runtime)
      modifies this`debug, this`header, this`statusCode, debug
      ensures Fields() == OverrideStatus(rt, old(Fields()))
      ensures Cached() == Leave(old(Cached()), old(Fields()), AdjustGivesUp(old(Fields())))
    {
      if errors.Some? && IsSuccess(statusCode) {
        PutDebug(KStatusOverride, Str(rt.overrideNote(statusCode)));
        PlaceError();
      }
    }

    method FillIssueField(seed: Seed)
      requires IsFailure(statusCode) ==> errors.Some?
      modifies this`issue
      ensures Fields() == FillIssue(old(Fields()), seed) && Cached() == old(Cached())
    {
      if errors.Some? || IsFailure(statusCode) {
        if issue.None? {
          issue := Some(NewIssue(errors.value, seed));
        }
      }
    }

    method AutoAdjustFields(rt: Runtime, seed: Seed)
      modifies this, debug
      ensures Fields() == Adjust(rt, old(Fields()), seed) && cacheHash == old(cacheHash)
      ensures Cached() == Leave(old(Cached()), old(Fields()), AdjustGivesUp(old(Fields())))
    {
      FillErrorField(rt, seed);
      FillErrorGivesUp(rt, old(Cached()), old(Fields()), seed);
      OverrideStatusField(rt);
      FillIssueField(seed);
    }

    method HashNow(rt: Runtime, code: Int64) returns (h: Hash)
      requires code == statusCode
      ensures h == CacheKey(rt, Fields())
    {
      var m, d := MetaNow(), DebugNow();
      if HashableBody(data) && EncodableDict(d) && (m.Some? ==> EncodableDict(m.value.customFields)) {
        h := HashOf(code, message, rt.bodyDigest(data), HeaderRespond(header), MetaFixed(rt, m),
                    CustomDigest(rt, m), PagesRespond(pagination), rt.digest(Obj(d)), total, path);
      } else {
        h := NoHash;
      }
    }

    method ComputeHash(rt: Runtime) returns (h: Hash)
      modifies this`statusCode
      ensures Fields() == ResolveStatus(old(Fields())) && Cached() == old(Cached())
      ensures h == CacheKey(rt, ResolveStatus(old(Fields())))
    {
      var code := StatusCode();
      h := HashNow(rt, code);
    }

    method StoreStatus(rt: Runtime, start: Dict) returns (m: Dict)
      requires start == Prefix(rt, Fields(), 0)
      ensures m == Prefix(rt, Fields(), 2)
    {
      ghost var s := Fields();
      m := start;
      if statusCode > 0 {
        m := m[KStatusCode := Int(statusCode)];
      }
      Visit(rt, s, 0, KStatusCode);
      if !IsEmpty(path) {
        m := m[KPath := Str(path)];
      }
      Visit(rt, s, 1, KPath);
    }

    method StoreText(rt: Runtime, start: Dict) returns (m: Dict)
      requires start == Prefix(rt, Fields(), 2)
      ensures m == Prefix(rt, Fields(), 4)
    {
      ghost var s := Fields();
      m := start;
      if !IsEmpty(message) {
        m := m[KMessage := Str(message)];
      }
      Visit(rt, s, 2, KMessage);
      if Present(data) && !skipBody {
        m := m[KData := Printed(rt, data)];
      }
      Visit(rt, s, 3, KData);
    }

    method StoreTotals(rt: Runtime, start: Dict) returns (m: Dict)
      requires start == Prefix(rt, Fields(), 4)
      ensures m == Prefix(rt, Fields(), 6)
    {
      ghost var s := Fields();
      m := start;
      if total >= 0 {
        m := m[KTotal := Int(total)];
      }
      Visit(rt, s, 4, KTotal);
      if pagination.Some? {
        m := m[KPagination := Obj(PagesRespond(pagination))];
      }
      Visit(rt, s, 5, KPagination);
    }

    method StoreRecords(rt: Runtime, start: Dict) returns (m: Dict, f: CustomMap?)
      requires start == Prefix(rt, Fields(), 6)
      ensures m == Prefix(rt, Fields(), 8)
      ensures (f != null <==> |CustomOf(MetaNow())| > 0) && (f != null ==> f == custom)
    {
      ghost var s := Fields();
      m, f := start, null;
      if meta.Some? {
        m := m[KMeta := Obj(MetaRespond(rt, MetaNow()))];
        if custom != null && |custom.entries| > 0 {
          f := custom;
        }
      }
      Visit(rt, s, 6, KMeta);
      if header.Some? {
        m := m[KHeader := Obj(HeaderRespond(header))];
      }
      Visit(rt, s, 7, KHeader);
    }

    method StoreDebug(rt: Runtime, start: Dict) returns (m: Dict, d: DebugMap?)
      requires start == Prefix(rt, Fields(), 8)
      ensures m == Prefix(rt, Fields(), 10)
      ensures (d != null <==> |DebugNow()| > 0) && (d != null ==> d == debug)
    {
      ghost var s := Fields();
      m, d := start, null;
      if debug != null && |debug.entries| > 0 {
        m := m[KDebug := Obj(debug.entries)];
        d := debug;
      }
      Visit(rt, s, 8, KDebug);
      if cursor.Some? {
        m := m[KCursor := Obj(CursorRespond(cursor.value))];
      }
      Visit(rt, s, 9, KCursor);
    }

    method StoreIssue(rt: Runtime, start: Dict) returns (m: Dict)
      requires start == Prefix(rt, Fields(), 10)
      ensures m == Prefix(rt, Fields(), 12)
    {
      ghost var s := Fields();
      m := start;
      if issue.Some? {
        m := m[KIssue := Obj(IssueRespond(issue.value))];
      }
      Visit(rt, s, 10, KIssue);
      if LinksPresent(links) {
        m := m[KLinks := Obj(LinksRespond(links.value))];
      }
      Visit(rt, s, 11, KLinks);
    }

    method StoreTrust(rt: Runtime, start: Dict) returns (m: Dict, t: TextMap?)
      requires start == Prefix(rt, Fields(), 12)
      ensures m == Prefix(rt, Fields(), 14)
      ensures (t != null <==> |TextsOf(SignatureNow())| > 0) && (t != null ==> t == texts)
    {
      ghost var s := Fields();
      m, t := start, null;
      if signature.Some? {
        m := m[KSignature := Obj(SignatureRespond(SignatureNow().value))];
        TextDictEmpty(SignatureNow().value.headers);
        if texts != null && |texts.entries| > 0 {
          t := texts;
        }
      }
      Visit(rt, s, 12, KSignature);
      if reason.Some? {
        m := m[KReason := Obj(ReasonRespond(reason.value))];
      }
      Visit(rt, s, 13, KReason);
    }

    /**
     * build, which stores the maps themselves; its fourteen conditional stores are grouped so that each group is proved
     * on its own.
     */
    method BuildMap(rt: Runtime) returns (m: Dict, d: DebugMap?, f: CustomMap?, t: TextMap?)
      ensures m == Build(rt, Fields())
      ensures (d != null <==> |DebugNow()| > 0) && (d != null ==> d == debug)
      ensures (f != null <==> |CustomOf(MetaNow())| > 0) && (f != null ==> f == custom)
      ensures (t != null <==> |TextsOf(SignatureNow())| > 0) && (t != null ==> t == texts)
    {
      m := map[];
      m := StoreStatus(rt, m);
      m := StoreText(rt, m);
      m := StoreTotals(rt, m);
      m, f := StoreRecords(rt, m);
      m, d := StoreDebug(rt, m);
      m := StoreIssue(rt, m);
      m, t := StoreTrust(rt, m);
      AllVisited(rt, Fields());
    }

    method Respond(rt: Runtime, seed: Seed) returns (m: Dict)
      modifies this, debug
      ensures (Snap(), m) == Render(rt, old(Snap()), seed)
    {
      AutoAdjustFields(rt, seed);
      var hash := ComputeHash(rt);
      if cacheHash == hash && cachedWrap.Some? {
        m := Read(Cached().value, Fields());
        HitRenders(rt, old(Snap()), seed, Snap());
      } else {
        m := Rebuild(rt, hash);
        MissRenders(rt, old(Snap()), seed, Snap());
      }
    }

    method HoldDebug(d: DebugMap?)
      requires (d != null <==> |DebugNow()| > 0) && (d != null ==> d == debug)
      modifies this`cachedDebug
      ensures HeldDebug() == Hold(|DebugNow()| > 0)
    {
      cachedDebug := d;
    }

    method HoldCustom(f: CustomMap?)
      requires (f != null <==> |CustomOf(MetaNow())| > 0) && (f != null ==> f == custom)
      modifies this`cachedCustom
      ensures HeldCustom() == Hold(|CustomOf(MetaNow())| > 0)
    {
      cachedCustom := f;
    }

    method HoldTexts(t: TextMap?)
      requires (t != null <==> |TextsOf(SignatureNow())| > 0) && (t != null ==> t == texts)
      modifies this`cachedTexts
      ensures HeldTexts() == Hold(|TextsOf(SignatureNow())| > 0)
    {
      cachedTexts := t;
    }

    method StoreBuilt(m: Dict, d: DebugMap?, f: CustomMap?, t: TextMap?, hash: Hash)
      requires (d != null <==> |DebugNow()| > 0) && (d != null ==> d == debug)
      requires (f != null <==> |CustomOf(MetaNow())| > 0) && (f != null ==> f == custom)
      requires (t != null <==> |TextsOf(SignatureNow())| > 0) && (t != null ==> t == texts)
      modifies this`cachedWrap, this`cachedDebug, this`cachedCustom, this`cachedTexts, this`cacheHash
      ensures cachedWrap == Some(m) && cacheHash == hash
      ensures HeldDebug() == Hold(|DebugNow()| > 0)
      ensures HeldCustom() == Hold(|CustomOf(MetaNow())| > 0)
      ensures HeldTexts() == Hold(|TextsOf(SignatureNow())| > 0)
    {
      HoldDebug(d);
      HoldCustom(f);
      HoldTexts(t);
      cachedWrap, cacheHash := Some(m), hash;
    }

    /** Stores what build returned for the present fields, under the key that was computed before. */
    method StoreImage(ghost s: State, m: Dict, d: DebugMap?, f: CustomMap?, t: TextMap?, hash: Hash)
      requires s == Fields()
      requires (d != null <==> |DebugNow()| > 0) && (d != null ==> d == debug)
      requires (f != null <==> |CustomOf(MetaNow())| > 0) && (f != null ==> f == custom)
      requires (t != null <==> |TextsOf(SignatureNow())| > 0) && (t != null ==> t == texts)
      modifies this`cachedWrap, this`cachedDebug, this`cachedCustom, this`cachedTexts, this`cacheHash
      ensures Fields() == s && cacheHash == hash
      ensures Cached() ==
              Some(Image(m, Hold(|s.debug| > 0), Hold(|CustomOf(s.meta)| > 0), Hold(|TextsOf(s.signature)| > 0)))
    {
      StoreBuilt(m, d, f, t, hash);
    }

    method Rebuild(rt: Runtime, hash: Hash) returns (m: Dict)
      modifies this`cachedWrap, this`cachedDebug, this`cachedCustom, this`cachedTexts, this`cacheHash
      ensures m == Build(rt, old(Fields()))
      ensures Snap() == Snapshot(old(Fields()), Some(Taken(rt, old(Fields()))), hash)
    {
      var d, f, t;
      m, d, f, t := BuildMap(rt);
      StoreImage(Fields(), m, d, f, t, hash);
    }

    method RespondIgnoring(rt: Runtime, seed: Seed, ignored: seq<Key>) returns (m: Dict)
      modifies this, debug
      ensures Snap() == Render(rt, old(Snap()), seed).0
      ensures m == Without(Render(rt, old(Snap()), seed).1, ignored)
    {
      var src := Respond(rt, seed);
      m := DropFields(src, ignored);
    }

    static method DropFields(src: Dict, ignored: seq<Key>) returns (m: Dict)
      ensures m == Without(src, ignored)
    {
      m := src;
      for i := 0 to |ignored|
        invariant m == Without(src, ignored[..i])
      {
        assert ignored[..i + 1] == ignored[..i] + [ignored[i]];
        if BlankKey(ignored[i]) {
          continue;
        }
        m := m - {ignored[i]};
      }
      assert ignored[..|ignored|] == ignored;
    }
  }
}
