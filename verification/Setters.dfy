/** What each fluent call changes, in the terms of the printed map, and what it leaves. */
module Setters {
  import opened Values
  import opened Library
  import opened Parts
  import opened Bodies
  import opened Pages
  import opened ErrorChain
  import opened Envelope
  import opened Printing

  /** Both states print the same, but for these fields. */
  ghost predicate SamePrint(rt: Runtime, a: State, b: State, besides: set<Key>) {
    forall k :: k !in besides ==> Lookup(Build(rt, a), k) == Lookup(Build(rt, b), k)
  }

  /** The two fields that build reads or ignores without printing them. */
  predicate SameHidden(a: State, b: State) {
    a.errors == b.errors && a.skipBody == b.skipBody
  }

  lemma SameCellsPrint(rt: Runtime, a: State, b: State, besides: set<Key>)
    requires forall k :: k !in besides ==> Cell(rt, a, k) == Cell(rt, b, k)
    ensures SamePrint(rt, a, b, besides)
  {
    BuildCells(rt, a);
    BuildCells(rt, b);
  }

  /** The calls that are plain edits reach the state as Edit says; the others are Reset, Release and Respond. */
  lemma Edited(rt: Runtime, x: Snapshot, op: Op)
    requires !op.WithLinks? && !op.WithLinkObject? && !op.WithReason? && !op.ReleasePart? && !op.Reset? && !op.Respond?
    ensures Step(rt, x, op).st == Edit(rt, x.st, op)
  {
  }

  // ---- Scalars ----

  lemma ScalarCells(rt: Runtime, s: State, code: Int64, h: Option<Header>, total: Int64, text: string, path: string,
                    k: Key)
    ensures k !in {KStatusCode, KHeader} ==> Cell(rt, s.(statusCode := code, header := h), k) == Cell(rt, s, k)
    ensures k != KTotal ==> Cell(rt, s.(total := total), k) == Cell(rt, s, k)
    ensures k != KMessage ==> Cell(rt, s.(message := text), k) == Cell(rt, s, k)
    ensures k != KPath ==> Cell(rt, s.(path := path), k) == Cell(rt, s, k)
  {
  }

  /** A code outside 100..599 becomes 500, and the header is a new one with the same code and its standard text. */
  lemma StatusCodeSet(rt: Runtime, x: Snapshot, code: Int64)
    ensures var y := Step(rt, x, WithStatusCode(code)).st;
            var c := if 100 <= code <= 599 then code else 500;
            && y.header == Some(Header(c, rt.statusText(c), "", ""))
            && ShowsNumber(Build(rt, y), KStatusCode, c, true)
            && SamePrint(rt, y, x.st, {KStatusCode, KHeader}) && SameHidden(y, x.st)
  {
    var y := Step(rt, x, WithStatusCode(code)).st;
    Edited(rt, x, WithStatusCode(code));
    NumbersShown(rt, y);
    forall k | k !in {KStatusCode, KHeader}
      ensures Cell(rt, y, k) == Cell(rt, x.st, k)
    {
      ScalarCells(rt, x.st, y.statusCode, y.header, 0, "", "", k);
    }
    SameCellsPrint(rt, y, x.st, {KStatusCode, KHeader});
  }

  /** The status is the code of the header; nil is ignored. */
  lemma HeaderSet(rt: Runtime, x: Snapshot, h: Option<Header>)
    ensures var y := Step(rt, x, WithHeader(h)).st;
            if h.None? then y == x.st
            else
              && y.header == h && ShowsNumber(Build(rt, y), KStatusCode, h.value.code, h.value.code > 0)
              && SamePrint(rt, y, x.st, {KStatusCode, KHeader}) && SameHidden(y, x.st)
  {
    var y := Step(rt, x, WithHeader(h)).st;
    Edited(rt, x, WithHeader(h));
    NumbersShown(rt, y);
    forall k | k !in {KStatusCode, KHeader}
      ensures Cell(rt, y, k) == Cell(rt, x.st, k)
    {
      ScalarCells(rt, x.st, y.statusCode, y.header, 0, "", "", k);
    }
    SameCellsPrint(rt, y, x.st, {KStatusCode, KHeader});
  }

  lemma TotalSet(rt: Runtime, x: Snapshot, n: Int64)
    ensures var y := Step(rt, x, WithTotal(n)).st;
            && ShowsNumber(Build(rt, y), KTotal, n, n >= 0)
            && SamePrint(rt, y, x.st, {KTotal}) && SameHidden(y, x.st)
  {
    var y := Step(rt, x, WithTotal(n)).st;
    Edited(rt, x, WithTotal(n));
    NumbersShown(rt, y);
    forall k | k !in {KTotal}
      ensures Cell(rt, y, k) == Cell(rt, x.st, k)
    {
      ScalarCells(rt, x.st, 0, None, n, "", "", k);
    }
    SameCellsPrint(rt, y, x.st, {KTotal});
  }

  lemma MessageSet(rt: Runtime, x: Snapshot, t: string)
    ensures var y := Step(rt, x, WithMessage(t)).st;
            && ShowsText(Build(rt, y), KMessage, t)
            && SamePrint(rt, y, x.st, {KMessage}) && SameHidden(y, x.st)
  {
    var y := Step(rt, x, WithMessage(t)).st;
    Edited(rt, x, WithMessage(t));
    TextsShown(rt, y);
    forall k | k !in {KMessage}
      ensures Cell(rt, y, k) == Cell(rt, x.st, k)
    {
      ScalarCells(rt, x.st, 0, None, 0, t, "", k);
    }
    SameCellsPrint(rt, y, x.st, {KMessage});
  }

  lemma PathSet(rt: Runtime, x: Snapshot, t: string)
    ensures var y := Step(rt, x, WithPath(t)).st;
            && ShowsText(Build(rt, y), KPath, t)
            && SamePrint(rt, y, x.st, {KPath}) && SameHidden(y, x.st)
  {
    var y := Step(rt, x, WithPath(t)).st;
    Edited(rt, x, WithPath(t));
    TextsShown(rt, y);
    forall k | k !in {KPath}
      ensures Cell(rt, y, k) == Cell(rt, x.st, k)
    {
      ScalarCells(rt, x.st, 0, None, 0, "", t, k);
    }
    SameCellsPrint(rt, y, x.st, {KPath});
  }

  lemma BodyCells(rt: Runtime, s: State, b: Body, skip: bool, k: Key)
    requires k != KData
    ensures Cell(rt, s.(data := b, skipBody := skip), k) == Cell(rt, s, k)
  {
  }

  /** The payload is printed unless it is skipped, and skipping is all that WithSkipBody decides. */
  lemma BodySet(rt: Runtime, x: Snapshot, b: Body, skip: bool, v: Value)
    ensures var y := Step(rt, Step(rt, x, WithBody(b)), WithSkipBody(skip)).st;
            && y.errors == x.st.errors && SamePrint(rt, y, x.st, {KData})
            && (KData in Build(rt, y) <==> Present(b) && !skip)
            && (KData in Build(rt, y) && ReadsAs(rt, b, v) ==>
                  Build(rt, y)[KData].Raw? && rt.decode(Build(rt, y)[KData].text) == Some(v))
  {
    var z := Step(rt, x, WithBody(b));
    var y := Step(rt, z, WithSkipBody(skip)).st;
    Edited(rt, x, WithBody(b));
    Edited(rt, z, WithSkipBody(skip));
    DataShown(rt, y, v);
    forall k | k !in {KData}
      ensures Cell(rt, y, k) == Cell(rt, x.st, k)
    {
      BodyCells(rt, x.st, b, skip, k);
    }
    SameCellsPrint(rt, y, x.st, {KData});
  }

  // ---- Debug map ----

  lemma DebugCells(rt: Runtime, s: State, d: Dict, k: Key)
    requires k != KDebug
    ensures Cell(rt, s.(debug := d), k) == Cell(rt, s, k)
  {
  }

  lemma DebugReplaced(rt: Runtime, s: State, d: Dict)
    ensures ShowsDict(Build(rt, s.(debug := d)), KDebug, d) && SamePrint(rt, s.(debug := d), s, {KDebug})
  {
    DebugShown(rt, s.(debug := d));
    forall k | k !in {KDebug}
      ensures Cell(rt, s.(debug := d), k) == Cell(rt, s, k)
    {
      DebugCells(rt, s, d, k);
    }
    SameCellsPrint(rt, s.(debug := d), s, {KDebug});
  }

  lemma DebugSet(rt: Runtime, x: Snapshot, d: Dict)
    ensures var y := Step(rt, x, WithDebugging(d)).st;
            ShowsDict(Build(rt, y), KDebug, d) && SamePrint(rt, y, x.st, {KDebug}) && SameHidden(y, x.st)
  {
    Edited(rt, x, WithDebugging(d));
    DebugReplaced(rt, x.st, d);
  }

  lemma DebugEntrySet(rt: Runtime, x: Snapshot, key: Key, v: Value)
    ensures var y := Step(rt, x, WithDebuggingKV(key, v)).st;
            && ShowsDict(Build(rt, y), KDebug, x.st.debug[key := v])
            && SamePrint(rt, y, x.st, {KDebug}) && SameHidden(y, x.st)
  {
    Edited(rt, x, WithDebuggingKV(key, v));
    DebugReplaced(rt, x.st, x.st.debug[key := v]);
  }

  // ---- Errors ----

  lemma ErrorCells(rt: Runtime, s: State, es: Option<Err>, k: Key)
    ensures Cell(rt, s.(errors := es), k) == Cell(rt, s, k)
  {
  }

  /** An error is never printed; it shows in IsError, and in what autoAdjust makes of it. */
  lemma ErrorsUnprinted(rt: Runtime, s: State, es: Option<Err>)
    ensures Build(rt, s.(errors := es)) == Build(rt, s)
  {
    forall k
      ensures Cell(rt, s.(errors := es), k) == Cell(rt, s, k)
    {
      ErrorCells(rt, s, es, k);
    }
    SameCells(rt, s.(errors := es), s);
  }

  lemma ErrorSet(rt: Runtime, x: Snapshot, e: Option<Err>)
    ensures var y := Step(rt, x, WithErrors(e)).st;
            && y.errors == e && y.skipBody == x.st.skipBody && Build(rt, y) == Build(rt, x.st)
            && (IsError(y) <==> e.Some? || 400 <= x.st.statusCode <= 599)
  {
    ErrorsUnprinted(rt, x.st, e);
  }

  /** The message becomes the error, or annotates the one that is there; a blank one does nothing. */
  lemma CauseBound(rt: Runtime, x: Snapshot, id: nat)
    ensures var (s, y) := (x.st, Step(rt, x, BindCause(id)).st);
            && y.skipBody == s.skipBody && Build(rt, y) == Build(rt, s)
            && if IsEmpty(s.message) then y.errors == s.errors
               else
                 && y.errors.Some?
                 && (if s.errors.None? then Message(y.errors.value) == s.message && Root(y.errors) == y.errors
                     else Message(y.errors.value) == s.message + ": " + Message(s.errors.value)
                          && Root(y.errors) == Root(s.errors) && y.errors.value.UnderlyingStack?)
  {
    ErrorsUnprinted(rt, x.st, Step(rt, x, BindCause(id)).st.errors);
    if x.st.errors.Some? && !IsEmpty(x.st.message) {
      WrapReads(AppendAck(x.st.message), x.st.errors.value, id);
      WrapKeepsChain(AppendAck(x.st.message), x.st.errors, id, None);
    }
  }

  /** Appended errors read newest first; the first error stays the root cause. */
  lemma ErrorsAppended(rt: Runtime, x: Snapshot, es: seq<Err>, id: nat)
    requires es != []
    ensures var (s, y) := (x.st, Step(rt, x, AppendErrs(Lift(es), id)).st);
            && y.skipBody == s.skipBody && Build(rt, y) == Build(rt, s) && y.errors.Some?
            && (var all := (if s.errors.Some? then [s.errors.value] else []) + es;
                Message(y.errors.value) == NewestFirst(all) && Root(y.errors) == Root(Some(all[0])))
  {
    ErrorsUnprinted(rt, x.st, Step(rt, x, AppendErrs(Lift(es), id)).st.errors);
    if x.st.errors.Some? {
      AppendedTo(x.st.errors.value, es, id, None);
    } else {
      AppendedReads(es, id, None);
      assert [] + es == es;
    }
  }

  // ---- Records ----

  lemma MetaCells(rt: Runtime, s: State, m: Option<Meta>, k: Key)
    requires k != KMeta
    ensures Cell(rt, s.(meta := m), k) == Cell(rt, s, k)
  {
  }

  lemma MetaReplaced(rt: Runtime, s: State, m: Option<Meta>)
    ensures SamePrint(rt, s.(meta := m), s, {KMeta})
  {
    forall k | k !in {KMeta}
      ensures Cell(rt, s.(meta := m), k) == Cell(rt, s, k)
    {
      MetaCells(rt, s, m, k);
    }
    SameCellsPrint(rt, s.(meta := m), s, {KMeta});
  }

  /** The field that a meta setter writes. */
  function Written(e: MetaEdit): set<Key> {
    match e
    case MetaApiVersion(_) => {KApiVersion}
    case MetaRequestID(_) => {KRequestId}
    case MetaLocale(_) => {KLocale}
    case MetaTime(_) => {KRequestedTime}
    case MetaCustomFields(_) => {KCustomFields}
    case MetaCustomKV(_, _) => {KCustomFields}
    case MetaDelta(_) => {KDeltaValue, KDeltaCnt}
    case MetaIncrease => {KDeltaCnt}
    case MetaDecrease => {KDeltaCnt}
  }

  lemma MetaFieldKept(rt: Runtime, o: Option<Meta>, e: MetaEdit, k: Key)
    requires o.Some? && k !in Written(e)
    ensures MetaCell(rt, EditMeta(o, e), k) == MetaCell(rt, o.value, k)
  {
  }

  /** The other fields of a meta that is there are kept. */
  lemma MetaFieldsKept(rt: Runtime, x: Snapshot, e: MetaEdit, k: Key)
    requires x.st.meta.Some? && k !in Written(e)
    ensures var y := Step(rt, x, WithMetaEdit(e)).st;
            && y.meta.Some? && Lookup(Inside(rt, y, KMeta), k) == Lookup(Inside(rt, x.st, KMeta), k)
            && SamePrint(rt, y, x.st, {KMeta}) && SameHidden(y, x.st)
  {
    var y := Step(rt, x, WithMetaEdit(e)).st;
    Edited(rt, x, WithMetaEdit(e));
    MetaReplaced(rt, x.st, y.meta);
    MetaInside(rt, x.st, x.st.meta.value);
    MetaInside(rt, y, y.meta.value);
    if k in META_KEYS {
      MetaLookup(rt, x.st.meta.value, k);
      MetaLookup(rt, y.meta.value, k);
      MetaFieldKept(rt, x.st.meta, e, k);
    }
  }

  /** And the one that is written shows the argument. */
  lemma MetaSet(rt: Runtime, x: Snapshot, e: MetaEdit)
    ensures var m := Inside(rt, Step(rt, x, WithMetaEdit(e)).st, KMeta);
            match e
            case MetaApiVersion(v) => ShowsText(m, KApiVersion, v)
            case MetaRequestID(v) => ShowsText(m, KRequestId, v)
            case MetaLocale(v) => ShowsText(m, KLocale, v)
            case MetaTime(t) => t != 0 ==> Lookup(m, KRequestedTime) == Some(Str(rt.formatTime(t)))
            case MetaCustomFields(d) => ShowsDict(m, KCustomFields, d)
            case MetaCustomKV(k, v) => ShowsDict(m, KCustomFields, CustomOf(x.st.meta)[k := v])
            case MetaDelta(d) => d.digits > 0 ==> Lookup(m, KDeltaValue) == Some(Num(d))
            case _ => true
  {
    var y := Step(rt, x, WithMetaEdit(e)).st;
    Edited(rt, x, WithMetaEdit(e));
    MetaShown(rt, y, y.meta.value);
  }

  /** The change counter goes up by one, or down by one, in 64-bit arithmetic. */
  lemma MetaCounted(rt: Runtime, x: Snapshot, e: MetaEdit)
    requires e.MetaDelta? || e.MetaIncrease? || e.MetaDecrease?
    ensures var y := Step(rt, x, WithMetaEdit(e)).st;
            var n := if x.st.meta.Some? then x.st.meta.value.deltaCnt else 0;
            && y.meta.Some?
            && (y.meta.value.deltaCnt - (if e.MetaDecrease? then n - 1 else n + 1)) % 0x1_0000_0000_0000_0000 == 0
  {
    var n := if x.st.meta.Some? then x.st.meta.value.deltaCnt else 0;
    WrapMeaning(n + 1, 0);
    WrapMeaning(n - 1, 0);
  }

  lemma PagesCells(rt: Runtime, s: State, p: Option<PageState>, k: Key)
    requires k != KPagination
    ensures Cell(rt, s.(pagination := p), k) == Cell(rt, s, k)
  {
  }

  /** Pagination is made from zero if there is none, and changed by the setter. */
  lemma PagesSet(rt: Runtime, x: Snapshot, op: PageOp)
    ensures var y := Step(rt, x, WithPageEdit(op)).st;
            && y.pagination == Some(ApplyPage(if x.st.pagination.Some? then x.st.pagination.value
                                              else PageState(0, 0, 0, 0, false), op))
            && SamePrint(rt, y, x.st, {KPagination}) && SameHidden(y, x.st)
  {
    var y := Step(rt, x, WithPageEdit(op)).st;
    Edited(rt, x, WithPageEdit(op));
    forall k | k !in {KPagination}
      ensures Cell(rt, y, k) == Cell(rt, x.st, k)
    {
      PagesCells(rt, x.st, y.pagination, k);
    }
    SameCellsPrint(rt, y, x.st, {KPagination});
  }

  lemma CursorCells(rt: Runtime, s: State, c: Option<Cursor>, k: Key)
    requires k != KCursor
    ensures Cell(rt, s.(cursor := c), k) == Cell(rt, s, k)
  {
  }

  lemma CursorReplaced(rt: Runtime, s: State, c: Option<Cursor>)
    ensures SamePrint(rt, s.(cursor := c), s, {KCursor})
  {
    forall k | k !in {KCursor}
      ensures Cell(rt, s.(cursor := c), k) == Cell(rt, s, k)
    {
      CursorCells(rt, s, c, k);
    }
    SameCellsPrint(rt, s.(cursor := c), s, {KCursor});
  }

  /** Each cursor setter writes its field of the cursor, which is made from zero if there is none. */
  lemma CursorFieldSet(rt: Runtime, x: Snapshot, e: CursorEdit)
    ensures var y := Step(rt, x, WithCursorEdit(e)).st;
            var c := if x.st.cursor.Some? then x.st.cursor.value else Cursor("", "", false, false, 0);
            var m := Inside(rt, y, KCursor);
            && SamePrint(rt, y, x.st, {KCursor}) && SameHidden(y, x.st)
            && Lookup(m, KNext) == Some(Str(if e.CursorNext? then e.v else c.next))
            && Lookup(m, KPrevious) == Some(Str(if e.CursorPrev? then e.v else c.previous))
            && ShowsFlag(m, KHasNext, if e.CursorHasNext? then e.b else c.hasNext, true)
            && ShowsFlag(m, KHasPrevious, if e.CursorHasPrev? then e.b else c.hasPrevious, true)
            && ShowsNumber(m, KLimit, if e.CursorLimit? then e.n else c.limit, true)
  {
    var y := Step(rt, x, WithCursorEdit(e)).st;
    Edited(rt, x, WithCursorEdit(e));
    CursorReplaced(rt, x.st, y.cursor);
    CursorShown(rt, y, y.cursor.value);
  }

  lemma ReasonCells(rt: Runtime, s: State, r: Option<Reason>, k: Key)
    requires k != KReason
    ensures Cell(rt, s.(reason := r), k) == Cell(rt, s, k)
  {
  }

  lemma ReasonReplaced(rt: Runtime, s: State, r: Option<Reason>)
    ensures SamePrint(rt, s.(reason := r), s, {KReason})
  {
    forall k | k !in {KReason}
      ensures Cell(rt, s.(reason := r), k) == Cell(rt, s, k)
    {
      ReasonCells(rt, s, r, k);
    }
    SameCellsPrint(rt, s.(reason := r), s, {KReason});
  }

  /** A code that the table knows brings its category along. */
  lemma ReasonFieldSet(rt: Runtime, x: Snapshot, e: ReasonEdit)
    ensures var y := Step(rt, x, WithReasonEdit(e)).st;
            var r := if x.st.reason.Some? then x.st.reason.value else Reason("", "");
            var m := Inside(rt, y, KReason);
            && SamePrint(rt, y, x.st, {KReason}) && SameHidden(y, x.st)
            && Lookup(m, KCode) == Some(Str(if e.ReasonCode? then e.v else r.code))
            && Lookup(m, KCategory) == Some(Str(if e.ReasonCategory? then e.v
                                                else if rt.reasonCategory(e.v).Some? then rt.reasonCategory(e.v).value
                                                else r.category))
  {
    var y := Step(rt, x, WithReasonEdit(e)).st;
    Edited(rt, x, WithReasonEdit(e));
    ReasonReplaced(rt, x.st, y.reason);
    ReasonShown(rt, y, y.reason.value);
  }

  lemma LinkCells(rt: Runtime, s: State, ls: Option<LinkMap>, k: Key)
    requires k != KLinks
    ensures Cell(rt, s.(links := ls), k) == Cell(rt, s, k)
  {
  }

  lemma LinksReplaced(rt: Runtime, s: State, ls: Option<LinkMap>)
    ensures SamePrint(rt, s.(links := ls), s, {KLinks})
  {
    forall k | k !in {KLinks}
      ensures Cell(rt, s.(links := ls), k) == Cell(rt, s, k)
    {
      LinkCells(rt, s, ls, k);
    }
    SameCellsPrint(rt, s.(links := ls), s, {KLinks});
  }

  /** The relation shows the link if that has an address. */
  lemma LinkSet(rt: Runtime, x: Snapshot, rel: Key, l: Link)
    ensures var y := Step(rt, x, WithLinkObject(rel, Some(l))).st;
            && y.links.Some? && SamePrint(rt, y, x.st, {KLinks}) && SameHidden(y, x.st)
            && (rel in Inside(rt, y, KLinks) <==> !IsEmpty(l.href))
            && (rel in Inside(rt, y, KLinks) ==>
                  Inside(rt, y, KLinks)[rel].Obj? && ShowsLink(Inside(rt, y, KLinks)[rel].fields, l))
    ensures Step(rt, x, WithLinkObject(rel, None)) == x
  {
    var y := Step(rt, x, WithLinkObject(rel, Some(l))).st;
    LinkShown(rt, y, rel);
    LinksReplaced(rt, x.st, y.links);
  }

  /** The other relations are kept. */
  lemma OtherLinksKept(rt: Runtime, x: Snapshot, rel: Key, l: Link, other: Key)
    requires other != rel
    ensures var y := Step(rt, x, WithLinkObject(rel, Some(l))).st;
            && y.links.Some? && (other in y.links.value <==> x.st.links.Some? && other in x.st.links.value)
            && (other in y.links.value ==> y.links.value[other] == x.st.links.value[other])
  {
  }

  // ---- Whole records ----

  lemma RecordCells(rt: Runtime, s: State, i: Option<Issue>, g: Option<Signature>, k: Key)
    ensures k != KIssue ==> Cell(rt, s.(issue := i), k) == Cell(rt, s, k)
    ensures k != KSignature ==> Cell(rt, s.(signature := g), k) == Cell(rt, s, k)
  {
  }

  lemma IssueReplaced(rt: Runtime, s: State, i: Option<Issue>)
    ensures SamePrint(rt, s.(issue := i), s, {KIssue})
  {
    forall k | k !in {KIssue}
      ensures Cell(rt, s.(issue := i), k) == Cell(rt, s, k)
    {
      RecordCells(rt, s, i, None, k);
    }
    SameCellsPrint(rt, s.(issue := i), s, {KIssue});
  }

  lemma SignatureReplaced(rt: Runtime, s: State, g: Option<Signature>)
    ensures SamePrint(rt, s.(signature := g), s, {KSignature})
  {
    forall k | k !in {KSignature}
      ensures Cell(rt, s.(signature := g), k) == Cell(rt, s, k)
    {
      RecordCells(rt, s, None, g, k);
    }
    SameCellsPrint(rt, s.(signature := g), s, {KSignature});
  }

  /** Meta, pagination and cursor can be replaced by nil. */
  lemma MetaPlaced(rt: Runtime, x: Snapshot, m: Option<Meta>)
    ensures var y := Step(rt, x, WithMeta(m)).st;
            y.meta == m && SamePrint(rt, y, x.st, {KMeta}) && SameHidden(y, x.st)
  {
    Edited(rt, x, WithMeta(m));
    MetaReplaced(rt, x.st, m);
  }

  lemma PagesPlaced(rt: Runtime, x: Snapshot, p: Option<PageState>)
    ensures var y := Step(rt, x, WithPagination(p)).st;
            y.pagination == p && SamePrint(rt, y, x.st, {KPagination}) && SameHidden(y, x.st)
  {
    var y := Step(rt, x, WithPagination(p)).st;
    Edited(rt, x, WithPagination(p));
    forall k | k !in {KPagination}
      ensures Cell(rt, y, k) == Cell(rt, x.st, k)
    {
      PagesCells(rt, x.st, p, k);
    }
    SameCellsPrint(rt, y, x.st, {KPagination});
  }

  lemma CursorPlaced(rt: Runtime, x: Snapshot, c: Option<Cursor>)
    ensures var y := Step(rt, x, WithCursor(c)).st;
            y.cursor == c && SamePrint(rt, y, x.st, {KCursor}) && SameHidden(y, x.st)
  {
    Edited(rt, x, WithCursor(c));
    CursorReplaced(rt, x.st, c);
  }

  /** A nil issue, signature, reason or link collection is ignored; the last two reset the cache. */
  lemma IssuePlaced(rt: Runtime, x: Snapshot, i: Option<Issue>)
    ensures var y := Step(rt, x, WithIssue(i)).st;
            && y.issue == (if i.Some? then i else x.st.issue)
            && SamePrint(rt, y, x.st, {KIssue}) && SameHidden(y, x.st)
  {
    Edited(rt, x, WithIssue(i));
    IssueReplaced(rt, x.st, Step(rt, x, WithIssue(i)).st.issue);
  }

  lemma SignaturePlaced(rt: Runtime, x: Snapshot, g: Option<Signature>)
    ensures var y := Step(rt, x, WithSignature(g)).st;
            && y.signature == (if g.Some? then g else x.st.signature)
            && SamePrint(rt, y, x.st, {KSignature}) && SameHidden(y, x.st)
  {
    Edited(rt, x, WithSignature(g));
    SignatureReplaced(rt, x.st, Step(rt, x, WithSignature(g)).st.signature);
  }

  lemma ReasonPlaced(rt: Runtime, x: Snapshot, r: Option<Reason>)
    ensures var y := Step(rt, x, WithReason(r));
            if r.None? then y == x
            else y.cached.None? && y.st.reason == r && SamePrint(rt, y.st, x.st, {KReason}) && SameHidden(y.st, x.st)
  {
    ReasonReplaced(rt, x.st, r);
  }

  lemma LinksPlaced(rt: Runtime, x: Snapshot, ls: Option<LinkMap>)
    ensures var y := Step(rt, x, WithLinks(ls));
            if ls.None? then y == x
            else y.cached.None? && y.st.links == ls && SamePrint(rt, y.st, x.st, {KLinks}) && SameHidden(y.st, x.st)
  {
    LinksReplaced(rt, x.st, ls);
  }

  // ---- The ends of a life ----

  lemma StartRecords(rt: Runtime, s: State)
    requires s.pagination.None? && s.cursor.None? && s.issue.None? && s.signature.None? && s.reason.None?
    requires s.links.None? && s.meta.Some?
    ensures Build(rt, s).Keys <= {KStatusCode, KPath, KMessage, KData, KTotal, KMeta, KHeader, KDebug}
    ensures KMeta in Build(rt, s) && (KHeader in Build(rt, s) <==> s.header.Some?)
  {
    RecordsShown(rt, s);
  }

  lemma StartScalars(rt: Runtime, s: State)
    requires s.statusCode == 0 && s.total == 0 && s.message == "" && s.data == Nil && s.path == "" && s.debug == map[]
    ensures var m := Build(rt, s);
            && ShowsNumber(m, KTotal, 0, true) && KStatusCode !in m && KPath !in m && KMessage !in m && KData !in m
            && KDebug !in m
  {
    NumbersShown(rt, s);
    TextsShown(rt, s);
    DebugShown(rt, s);
    DataShown(rt, s, Null);
  }

  lemma StartShown(rt: Runtime, s: State)
    requires s.statusCode == 0 && s.total == 0 && s.message == "" && s.data == Nil && s.path == "" && s.debug == map[]
    requires s.pagination.None? && s.cursor.None? && s.issue.None? && s.signature.None? && s.reason.None?
    requires s.links.None? && s.meta.Some?
    ensures Build(rt, s).Keys == {KTotal, KMeta} + if s.header.Some? then {KHeader} else {}
    ensures ShowsNumber(Build(rt, s), KTotal, 0, true)
  {
    StartRecords(rt, s);
    StartScalars(rt, s);
  }

  /** New prints the total 0, the header 102 and the default meta. */
  lemma NewShown(rt: Runtime, m: Meta)
    ensures var s := NewState(m);
            && Build(rt, s).Keys == {KTotal, KHeader, KMeta} && ShowsNumber(Build(rt, s), KTotal, 0, true)
            && s.header == Some(Header(102, "Processing", "Informational", "")) && s.meta == Some(m)
            && s.errors.None? && !s.skipBody
  {
    StartShown(rt, NewState(m));
  }

  /** Reset leaves no header either, and an empty cache. */
  lemma ResetShown(rt: Runtime, x: Snapshot, m: Meta)
    ensures var y := Step(rt, x, Reset(m));
            && y.cached.None? && Build(rt, y.st).Keys == {KTotal, KMeta}
            && ShowsNumber(Build(rt, y.st), KTotal, 0, true)
            && y.st.meta == Some(m) && y.st.errors.None? && !y.st.skipBody
  {
    StartShown(rt, ResetState(m));
  }

  /** The field that a Release call clears. */
  function Released(p: Part): Key {
    match p
    case PartIssue => KIssue
    case PartCursor => KCursor
    case PartDebug => KDebug
    case PartLinks => KLinks
    case PartSignature => KSignature
    case PartReason => KReason
  }

  lemma ReleasedCells(rt: Runtime, s: State, p: Part, k: Key)
    ensures Cell(rt, Release(s, p), k) == if k == Released(p) then None else Cell(rt, s, k)
  {
  }

  lemma ReleaseShown(rt: Runtime, x: Snapshot, p: Part)
    ensures var y := Step(rt, x, ReleasePart(p));
            && y.cached.None? && Released(p) !in Build(rt, y.st)
            && SamePrint(rt, y.st, x.st, {Released(p)}) && SameHidden(y.st, x.st)
  {
    var y := Step(rt, x, ReleasePart(p)).st;
    forall k
      ensures Cell(rt, y, k) == if k == Released(p) then None else Cell(rt, x.st, k)
    {
      ReleasedCells(rt, x.st, p, k);
    }
    SameCellsPrint(rt, y, x.st, {Released(p)});
    Stored(rt, y, Released(p));
  }
}
