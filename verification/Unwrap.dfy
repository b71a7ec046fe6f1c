/** entry.go: UnwrapJSON as the parser of what build prints. */
module Unwrap {
  import opened Values
  import opened Library
  import opened Parts
  import opened Bodies
  import opened Pages
  import opened Envelope
  import opened Wrappers

  // ---- The closures and type assertions ----

  /** toInt and toInt64 on a decoded value. */
  function ToInt(rt: Runtime, v: Value): Option<Int64> {
    if !v.Num? then None
    else if v.d.scale == 0 && MIN_INT <= v.d.digits <= MAX_INT then Some(v.d.digits)
    else rt.floatToInt(v.d)
  }

  function IntAt(rt: Runtime, m: Dict, k: Key): Int64 {
    if k in m && ToInt(rt, m[k]).Some? then ToInt(rt, m[k]).value else 0
  }

  function StrAt(m: Dict, k: Key): string {
    if k in m && m[k].Str? then m[k].s else ""
  }

  function BoolAt(m: Dict, k: Key): bool {
    k in m && m[k].Bool? && m[k].b
  }

  function ObjAt(m: Dict, k: Key): Option<Dict> {
    if k in m && m[k].Obj? then Some(m[k].fields) else None
  }

  function DictAt(m: Dict, k: Key): Dict {
    if ObjAt(m, k).Some? then ObjAt(m, k).value else map[]
  }

  function DeltaAt(rt: Runtime, m: Dict): Decimal {
    if KDeltaValue in m && m[KDeltaValue].Num? && rt.toFloat(m[KDeltaValue].d).Some?
    then rt.toFloat(m[KDeltaValue].d).value else Decimal(0, 0)
  }

  // ---- The records ----

  function ParseMeta(rt: Runtime, m: Dict): Meta {
    Meta(StrAt(m, KApiVersion), StrAt(m, KRequestId), StrAt(m, KLocale),
         if KRequestedTime in m && m[KRequestedTime].Str? then rt.parseTime(m[KRequestedTime].s) else 0,
         DictAt(m, KCustomFields), DeltaAt(rt, m), IntAt(rt, m, KDeltaCnt))
  }

  function ParseHeader(rt: Runtime, m: Dict): Header {
    Header(IntAt(rt, m, KCode), StrAt(m, KText), StrAt(m, KType), StrAt(m, KDescription))
  }

  /** The fields are copied; nothing is recalculated. */
  function ParsePages(rt: Runtime, m: Dict): PageState {
    PageState(IntAt(rt, m, KPage), IntAt(rt, m, KPerPage), IntAt(rt, m, KTotalPages), IntAt(rt, m, KTotalItems),
              BoolAt(m, KIsLast))
  }

  function ParseCursor(rt: Runtime, m: Dict): Cursor {
    Cursor(StrAt(m, KNext), StrAt(m, KPrevious), BoolAt(m, KHasNext), BoolAt(m, KHasPrevious), IntAt(rt, m, KLimit))
  }

  function ParseIssue(m: Dict): Issue {
    Issue(StrAt(m, KId), StrAt(m, KFingerprint), StrAt(m, KMessage))
  }

  function ParseLink(m: Dict): Link {
    Link(StrAt(m, KHref), StrAt(m, KMethod), StrAt(m, KTitle), StrAt(m, KType), BoolAt(m, KTemplated), StrAt(m, KName),
         StrAt(m, KDeprecation), StrAt(m, KProfile), StrAt(m, KHreflang))
  }

  function ParseLinks(m: Dict): LinkMap {
    map rel | rel in m && m[rel].Obj? :: Some(ParseLink(m[rel].fields))
  }

  function ParseTexts(m: Dict): map<Key, string> {
    map k | k in m && m[k].Str? :: m[k].s
  }

  function ParseSignature(rt: Runtime, m: Dict): Signature {
    Signature(StrAt(m, KAlgorithm), StrAt(m, KValue), IntAt(rt, m, KTimestamp), ParseTexts(DictAt(m, KHeaders)))
  }

  function ParseReason(m: Dict): Reason {
    Reason(StrAt(m, KCode), StrAt(m, KCategory))
  }

  function HeaderAt(rt: Runtime, m: Dict): Option<Header> {
    if ObjAt(m, KHeader).Some? then Some(ParseHeader(rt, m[KHeader].fields)) else None
  }

  function MetaAt(rt: Runtime, m: Dict): Option<Meta> {
    if ObjAt(m, KMeta).Some? then Some(ParseMeta(rt, m[KMeta].fields)) else None
  }

  function PagesAt(rt: Runtime, m: Dict): Option<PageState> {
    if ObjAt(m, KPagination).Some? then Some(ParsePages(rt, m[KPagination].fields)) else None
  }

  function CursorAt(rt: Runtime, m: Dict): Option<Cursor> {
    if ObjAt(m, KCursor).Some? then Some(ParseCursor(rt, m[KCursor].fields)) else None
  }

  function IssueAt(m: Dict): Option<Issue> {
    if ObjAt(m, KIssue).Some? then Some(ParseIssue(m[KIssue].fields)) else None
  }

  function SignatureAt(rt: Runtime, m: Dict): Option<Signature> {
    if ObjAt(m, KSignature).Some? then Some(ParseSignature(rt, m[KSignature].fields)) else None
  }

  function ReasonAt(m: Dict): Option<Reason> {
    if ObjAt(m, KReason).Some? then Some(ParseReason(m[KReason].fields)) else None
  }

  function LinksAt(m: Dict): Option<LinkMap> {
    if ObjAt(m, KLinks).Some? then Some(ParseLinks(m[KLinks].fields)) else None
  }

  function DataAt(rt: Runtime, m: Dict): Body {
    if KData in m then FromParsed(rt, m[KData]) else Nil
  }

  function Parse(rt: Runtime, m: Dict): State {
    State(IntAt(rt, m, KStatusCode), IntAt(rt, m, KTotal), StrAt(m, KMessage), DataAt(rt, m), StrAt(m, KPath),
          HeaderAt(rt, m), MetaAt(rt, m), PagesAt(rt, m), CursorAt(rt, m), IssueAt(m), SignatureAt(rt, m),
          ReasonAt(m), LinksAt(m), DictAt(m, KDebug), None, false)
  }

  /** UnwrapJSON: None is the error return. */
  function UnwrapText(rt: Runtime, text: string): Option<State> {
    if IsEmpty(text) then None
    else
      var v := rt.decode(rt.normalize(rt.strip(text)));
      if v.Some? && v.value.Obj? && |v.value.fields| > 0 then Some(Parse(rt, v.value.fields)) else None
  }

  // ---- The method ----

  method ParseLinksLoop(m: Dict) returns (items: LinkMap)
    ensures items == ParseLinks(m)
  {
    items := map[];
    var rest := m.Keys;
    while rest != {}
      invariant rest <= m.Keys
      invariant items == map rel | rel in m && rel !in rest && m[rel].Obj? :: Some(ParseLink(m[rel].fields))
      decreases |rest|
    {
      var rel :| rel in rest;
      rest := rest - {rel};
      if m[rel].Obj? {
        items := items[rel := Some(ParseLink(m[rel].fields))];
      }
    }
  }

  method ParseTextsLoop(m: Dict) returns (headers: map<Key, string>)
    ensures headers == ParseTexts(m)
  {
    headers := map[];
    var rest := m.Keys;
    while rest != {}
      invariant rest <= m.Keys
      invariant headers == map k | k in m && k !in rest && m[k].Str? :: m[k].s
      decreases |rest|
    {
      var k :| k in rest;
      rest := rest - {k};
      if m[k].Str? {
        headers := headers[k := m[k].s];
      }
    }
  }

  method FillScalars(rt: Runtime, m: Dict, w: Wrapper)
    requires w.statusCode == 0 && w.total == 0 && w.message == "" && w.path == "" && w.debug == null
    modifies w`statusCode, w`total, w`message, w`path, w`debug
    ensures w.statusCode == IntAt(rt, m, KStatusCode) && w.total == IntAt(rt, m, KTotal)
    ensures w.message == StrAt(m, KMessage) && w.path == StrAt(m, KPath) && w.DebugNow() == DictAt(m, KDebug)
  {
    if KStatusCode in m && ToInt(rt, m[KStatusCode]).Some? {
      w.statusCode := ToInt(rt, m[KStatusCode]).value;
    }
    if KTotal in m && ToInt(rt, m[KTotal]).Some? {
      w.total := ToInt(rt, m[KTotal]).value;
    }
    if KMessage in m && m[KMessage].Str? {
      w.message := m[KMessage].s;
    }
    if KPath in m && m[KPath].Str? {
      w.path := m[KPath].s;
    }
    if KDebug in m && m[KDebug].Obj? {
      w.debug := new DebugMap(m[KDebug].fields);
    }
  }

  method FillMain(rt: Runtime, m: Dict, w: Wrapper)
    requires w.meta.None? && w.header.None? && w.pagination.None?
    modifies w`meta, w`custom, w`header, w`pagination
    ensures w.MetaNow() == MetaAt(rt, m) && w.header == HeaderAt(rt, m) && w.pagination == PagesAt(rt, m)
  {
    if KMeta in m && m[KMeta].Obj? {
      var t := ParseMeta(rt, m[KMeta].fields);
      w.meta := Some(t);
      w.custom := new CustomMap(t.customFields);
    }
    if KHeader in m && m[KHeader].Obj? {
      w.header := Some(ParseHeader(rt, m[KHeader].fields));
    }
    if KPagination in m && m[KPagination].Obj? {
      w.pagination := Some(ParsePages(rt, m[KPagination].fields));
    }
  }

  method FillSide(rt: Runtime, m: Dict, w: Wrapper)
    requires w.cursor.None? && w.issue.None? && w.reason.None?
    modifies w`cursor, w`issue, w`reason
    ensures w.cursor == CursorAt(rt, m) && w.issue == IssueAt(m) && w.reason == ReasonAt(m)
  {
    if KCursor in m && m[KCursor].Obj? {
      w.cursor := Some(ParseCursor(rt, m[KCursor].fields));
    }
    if KIssue in m && m[KIssue].Obj? {
      w.issue := Some(ParseIssue(m[KIssue].fields));
    }
    if KReason in m && m[KReason].Obj? {
      w.reason := Some(ParseReason(m[KReason].fields));
    }
  }

  /** The two fields that are filled by a loop over a map. */
  method FillLoops(rt: Runtime, m: Dict, w: Wrapper)
    requires w.links.None? && w.signature.None?
    modifies w`links, w`signature, w`texts
    ensures w.links == LinksAt(m) && w.SignatureNow() == SignatureAt(rt, m)
  {
    if KLinks in m && m[KLinks].Obj? {
      var items := ParseLinksLoop(m[KLinks].fields);
      w.links := Some(items);
    }
    if KSignature in m && m[KSignature].Obj? {
      var d := m[KSignature].fields;
      var headers := ParseTextsLoop(DictAt(d, KHeaders));
      w.PlaceSignature(Signature(StrAt(d, KAlgorithm), StrAt(d, KValue), IntAt(rt, d, KTimestamp), headers));
    }
  }

  /** Every field that holds a record or a collection. */
  method FillRecords(rt: Runtime, m: Dict, w: Wrapper)
    requires w.meta.None? && w.header.None? && w.pagination.None? && w.cursor.None? && w.issue.None? && w.reason.None?
    requires w.links.None? && w.signature.None?
    modifies w`meta, w`custom, w`header, w`pagination, w`cursor, w`issue, w`reason, w`links, w`signature, w`texts
    ensures w.MetaNow() == MetaAt(rt, m) && w.header == HeaderAt(rt, m) && w.pagination == PagesAt(rt, m)
    ensures w.cursor == CursorAt(rt, m) && w.issue == IssueAt(m) && w.reason == ReasonAt(m)
    ensures w.links == LinksAt(m) && w.SignatureNow() == SignatureAt(rt, m)
  {
    FillMain(rt, m, w);
    FillSide(rt, m, w);
    FillLoops(rt, m, w);
  }

  method FillData(rt: Runtime, m: Dict, w: Wrapper)
    requires w.data == Nil
    modifies w`data
    ensures w.data == DataAt(rt, m)
  {
    if KData in m {
      w.data := FromParsed(rt, m[KData]);
    }
  }

  lemma Filled(rt: Runtime, m: Dict, s: State)
    requires s.statusCode == IntAt(rt, m, KStatusCode) && s.total == IntAt(rt, m, KTotal)
    requires s.message == StrAt(m, KMessage) && s.path == StrAt(m, KPath) && s.debug == DictAt(m, KDebug)
    requires s.meta == MetaAt(rt, m) && s.header == HeaderAt(rt, m) && s.pagination == PagesAt(rt, m)
    requires s.cursor == CursorAt(rt, m) && s.issue == IssueAt(m) && s.reason == ReasonAt(m)
    requires s.links == LinksAt(m) && s.signature == SignatureAt(rt, m)
    requires s.data == DataAt(rt, m) && s.errors.None? && !s.skipBody
    ensures s == Parse(rt, m)
  {
  }

  method Fill(rt: Runtime, m: Dict, w: Wrapper)
    requires w.statusCode == 0 && w.total == 0 && w.message == "" && w.path == "" && w.debug == null && w.data == Nil
    requires w.meta.None? && w.header.None? && w.pagination.None? && w.cursor.None? && w.issue.None? && w.reason.None?
    requires w.links.None? && w.signature.None? && w.errors.None? && !w.skipBody
    modifies w`statusCode, w`total, w`message, w`path, w`debug, w`data, w`meta, w`custom, w`header, w`pagination
    modifies w`cursor, w`issue, w`reason, w`links, w`signature, w`texts
    ensures w.statusCode == IntAt(rt, m, KStatusCode) && w.total == IntAt(rt, m, KTotal)
    ensures w.message == StrAt(m, KMessage) && w.path == StrAt(m, KPath) && w.DebugNow() == DictAt(m, KDebug)
    ensures w.MetaNow() == MetaAt(rt, m) && w.header == HeaderAt(rt, m) && w.pagination == PagesAt(rt, m)
    ensures w.cursor == CursorAt(rt, m) && w.issue == IssueAt(m) && w.reason == ReasonAt(m)
    ensures w.links == LinksAt(m) && w.SignatureNow() == SignatureAt(rt, m)
    ensures w.data == DataAt(rt, m) && w.errors.None? && !w.skipBody
  {
    FillScalars(rt, m, w);
    FillRecords(rt, m, w);
    FillData(rt, m, w);
  }

  /** The field extraction of UnwrapJSON: a zero struct, filled field by field. */
  method Extract(rt: Runtime, m: Dict) returns (w: Wrapper)
    ensures fresh(w) && w.Snap() == Uncached(Parse(rt, m))
  {
    w := new Wrapper.Zero();
    Fill(rt, m, w);
    Filled(rt, m, w.Fields());
  }

  method UnwrapJSON(rt: Runtime, text: string) returns (w: Wrapper?)
    ensures w == null <==> UnwrapText(rt, text).None?
    ensures w != null ==> fresh(w) && w.Snap() == Uncached(UnwrapText(rt, text).value)
  {
    if IsEmpty(text) {
      return null;
    }
    var v := rt.decode(rt.normalize(rt.strip(text)));
    if v.None? || !v.value.Obj? || |v.value.fields| == 0 {
      return null;
    }
    w := Extract(rt, v.value.fields);
  }

  // ---- Each record prints the same after a parse ----

  lemma HeaderReprints(rt: Runtime, h: Header)
    ensures HeaderRespond(Some(ParseHeader(rt, HeaderRespond(Some(h))))) == HeaderRespond(Some(h))
  {
  }

  predicate TimeSurvives(rt: Runtime, t: Instant) {
    t == 0 || (rt.parseTime(rt.formatTime(t)) != 0 && rt.formatTime(rt.parseTime(rt.formatTime(t))) == rt.formatTime(t))
  }

  /** delta_value is a float64: its shortest literal reads back as itself. */
  predicate FloatLiteral(rt: Runtime, d: Decimal) {
    d.digits > 0 ==> rt.toFloat(d) == Some(d)
  }

  /** Any map that stores a meta field the way Respond does gives the field back; the time has a condition. */
  lemma MetaCellFrom(rt: Runtime, m: Dict, t: Meta, k: Key)
    requires FloatLiteral(rt, t.deltaValue) && Lookup(m, k) == MetaCell(rt, t, k)
    ensures MetaCell(rt, ParseMeta(rt, m), k) == MetaCell(rt, t, k)
            <==> (k == KRequestedTime ==> TimeSurvives(rt, t.requestedTime))
  {
  }

  lemma SameMeta(rt: Runtime, a: Meta, b: Meta)
    ensures MetaRespond(rt, Some(a)) == MetaRespond(rt, Some(b)) <==>
            forall k :: k in META_KEYS ==> MetaCell(rt, a, k) == MetaCell(rt, b, k)
  {
    var ma, mb := MetaRespond(rt, Some(a)), MetaRespond(rt, Some(b));
    forall k | k in META_KEYS
      ensures Lookup(ma, k) == MetaCell(rt, a, k) && Lookup(mb, k) == MetaCell(rt, b, k)
    {
      MetaLookup(rt, a, k);
      MetaLookup(rt, b, k);
    }
    if forall k :: k in META_KEYS ==> Lookup(ma, k) == Lookup(mb, k) {
      SameLookups(ma, mb, META_KEYS);
    }
  }

  lemma MetaReprints(rt: Runtime, t: Meta, m: Dict)
    requires FloatLiteral(rt, t.deltaValue) && m == MetaRespond(rt, Some(t))
    ensures MetaRespond(rt, Some(ParseMeta(rt, m))) == m <==> TimeSurvives(rt, t.requestedTime)
  {
    forall k | k in META_KEYS
      ensures MetaCell(rt, ParseMeta(rt, m), k) == MetaCell(rt, t, k)
              <==> (k == KRequestedTime ==> TimeSurvives(rt, t.requestedTime))
    {
      MetaCellFrom(rt, m, t, k);
    }
    SameMeta(rt, ParseMeta(rt, m), t);
    assert KRequestedTime in META_KEYS;
  }

  lemma PagesReprint(rt: Runtime, p: PageState)
    ensures ParsePages(rt, PagesRespond(Some(p))) == p
  {
  }

  lemma CursorReprints(rt: Runtime, c: Cursor)
    ensures ParseCursor(rt, CursorRespond(c)) == c
  {
  }

  lemma IssueReprints(i: Issue)
    ensures IssueRespond(ParseIssue(IssueRespond(i))) == IssueRespond(i)
  {
  }

  lemma LinkCellFrom(m: Dict, l: Link, k: Key)
    requires Lookup(m, k) == LinkCell(l, k)
    ensures LinkCell(ParseLink(m), k) == LinkCell(l, k)
  {
  }

  lemma LinkLookup(l: Link, k: Key)
    requires k in LINK_KEYS
    ensures Lookup(LinkRespond(l), k) == LinkCell(l, k)
  {
  }

  /** Links with the same cells print the same. */
  lemma SameLink(a: Link, b: Link)
    requires forall k :: k in LINK_KEYS ==> LinkCell(a, k) == LinkCell(b, k)
    ensures LinkRespond(a) == LinkRespond(b)
  {
    var ma, mb := LinkRespond(a), LinkRespond(b);
    forall k | k in LINK_KEYS
      ensures Lookup(ma, k) == Lookup(mb, k)
    {
      LinkLookup(a, k);
      LinkLookup(b, k);
    }
    SameLookups(ma, mb, LINK_KEYS);
  }

  /** Any map that stores a link the way Respond does gives the link back. */
  lemma LinkFrom(m: Dict, l: Link)
    requires forall k :: k in LINK_KEYS ==> Lookup(m, k) == LinkCell(l, k)
    ensures LinkRespond(ParseLink(m)) == LinkRespond(l)
    ensures LinkCell(ParseLink(m), KHref) == LinkCell(l, KHref)
  {
    forall k | k in LINK_KEYS
      ensures LinkCell(ParseLink(m), k) == LinkCell(l, k)
    {
      LinkCellFrom(m, l, k);
    }
    SameLink(ParseLink(m), l);
    assert KHref in LINK_KEYS;
  }

  lemma LinkReprints(l: Link)
    ensures LinkRespond(ParseLink(LinkRespond(l))) == LinkRespond(l)
  {
    forall k | k in LINK_KEYS
      ensures Lookup(LinkRespond(l), k) == LinkCell(l, k)
    {
      LinkLookup(l, k);
    }
    LinkFrom(LinkRespond(l), l);
  }

  lemma HrefKept(m: Dict, l: Link)
    requires Lookup(m, KHref) == LinkCell(l, KHref)
    ensures !IsEmpty(l.href) ==> ParseLink(m).href == l.href
  {
  }

  lemma LinkEntry(items: LinkMap, rel: Key)
    requires rel in items && LinkAvailable(items[rel])
    ensures var p := Some(ParseLink(LinkRespond(items[rel].value)));
            LinkAvailable(p) && LinkRespond(p.value) == LinkRespond(items[rel].value)
  {
    LinkReprints(items[rel].value);
    LinkLookup(items[rel].value, KHref);
    HrefKept(LinkRespond(items[rel].value), items[rel].value);
  }

  lemma AllEntries(p: LinkMap, m: Dict)
    requires p.Keys == m.Keys
    requires forall rel :: rel in m ==> LinkAvailable(p[rel]) && Obj(LinkRespond(p[rel].value)) == m[rel]
    ensures LinksRespond(p) == m
  {
  }

  lemma LinksReprint(items: LinkMap, m: Dict)
    requires m == LinksRespond(items)
    ensures LinksRespond(ParseLinks(m)) == m
    ensures |ParseLinks(m)| > 0 <==> SomeLinkAvailable(items)
  {
    var p := ParseLinks(m);
    assert p.Keys == m.Keys;
    forall rel | rel in m
      ensures LinkAvailable(p[rel]) && Obj(LinkRespond(p[rel].value)) == m[rel]
    {
      LinkEntry(items, rel);
    }
    AllEntries(p, m);
    if |p| > 0 {
      var rel :| rel in p.Keys;
      assert LinkAvailable(items[rel]);
    }
    if SomeLinkAvailable(items) {
      var rel :| rel in items && LinkAvailable(items[rel]);
      assert rel in p;
    }
  }

  lemma TextsReprint(m: map<Key, string>)
    ensures ParseTexts(TextDict(m)) == m && ParseTexts(map[]) == map[] && (|m| == 0 ==> m == map[])
  {
    assert ParseTexts(TextDict(m)) == m;
  }

  lemma SignatureReprints(rt: Runtime, s: Signature)
    ensures SignatureRespond(ParseSignature(rt, SignatureRespond(s))) == SignatureRespond(s)
  {
    TextsReprint(s.headers);
  }

  lemma ReasonReprints(r: Reason)
    ensures ParseReason(ReasonRespond(r)) == r
  {
  }

  // ---- Print, parse, print ----

  predicate LinksSurvive(ls: Option<LinkMap>) {
    LinksPresent(ls) ==> SomeLinkAvailable(ls.value)
  }

  predicate DataSurvives(rt: Runtime, s: State) {
    Present(s.data) && !s.skipBody && Printed(rt, s.data).Raw? ==>
      rt.decode(Printed(rt, s.data).text).Some? && Stable(rt, Printed(rt, s.data).text)
  }

  /** The payload keeps its value, though perhaps not its bytes. */
  predicate DataKept(rt: Runtime, s: State) {
    Present(s.data) && !s.skipBody && Printed(rt, s.data).Raw? ==>
      rt.decode(Printed(rt, s.data).text).Some? && Kept(rt, rt.decode(Printed(rt, s.data).text).value)
  }

  predicate MetaSurvives(rt: Runtime, s: State) {
    s.meta.Some? ==> TimeSurvives(rt, s.meta.value.requestedTime)
  }

  predicate WellTyped(rt: Runtime, s: State) {
    && (s.meta.Some? ==> FloatLiteral(rt, s.meta.value.deltaValue))
    && (Present(s.data) && !s.skipBody ==> Printed(rt, s.data).Raw?)
  }

  /** When a top-level field prints the same after a parse. */
  predicate FieldSurvives(rt: Runtime, s: State, k: Key) {
    match k
    case KTotal => s.total >= 0
    case KLinks => LinksSurvive(s.links)
    case KData => DataSurvives(rt, s)
    case KMeta => MetaSurvives(rt, s)
    case _ => true
  }

  /** What the parser finds under a key that build printed. */
  function Found(rt: Runtime, s: State, k: Key): Option<Value> {
    if k == KData then Meaning(rt, Cell(rt, s, k)) else Cell(rt, s, k)
  }

  /** The map UnwrapJSON decodes from the printed one. */
  function Reread(rt: Runtime, s: State): Dict {
    ReadBack(rt, Build(rt, s))
  }

  lemma FindsIn(rt: Runtime, m: Dict, k: Key)
    ensures Lookup(ReadBack(rt, m), k) == if k == KData then Meaning(rt, Lookup(m, k)) else Lookup(m, k)
  {
  }

  lemma RereadFinds(rt: Runtime, s: State, k: Key)
    ensures Lookup(Reread(rt, s), k) == Found(rt, s, k)
  {
    BuildCells(rt, s);
    FindsIn(rt, Build(rt, s), k);
    assert Lookup(Build(rt, s), k) == Cell(rt, s, k);
  }

  lemma MetaFrom(rt: Runtime, m: Dict, s: State)
    requires WellTyped(rt, s) && Lookup(m, KMeta) == Cell(rt, s, KMeta)
    ensures Cell(rt, Parse(rt, m), KMeta) == Cell(rt, s, KMeta) <==> MetaSurvives(rt, s)
  {
    if s.meta.Some? { MetaReprints(rt, s.meta.value, m[KMeta].fields); }
  }

  lemma LinksFrom(rt: Runtime, m: Dict, s: State)
    requires Lookup(m, KLinks) == Cell(rt, s, KLinks)
    ensures Cell(rt, Parse(rt, m), KLinks) == Cell(rt, s, KLinks) <==> LinksSurvive(s.links)
  {
    if LinksPresent(s.links) { LinksReprint(s.links.value, m[KLinks].fields); }
  }

  lemma DataFrom(rt: Runtime, m: Dict, s: State)
    requires Lawful(rt) && WellTyped(rt, s) && Lookup(m, KData) == Found(rt, s, KData)
    ensures Cell(rt, Parse(rt, m), KData) == Cell(rt, s, KData) <==> DataSurvives(rt, s)
    ensures Meaning(rt, Cell(rt, Parse(rt, m), KData)) == Found(rt, s, KData) <==> DataKept(rt, s)
  {
    if Present(s.data) && !s.skipBody {
      var t := Printed(rt, s.data).text;
      PrintedLaid(rt, s.data);
      PayloadRoundTrip(rt, t);
      PayloadReprints(rt, rt.decode(t).value);
    }
  }

  lemma ConditionalFrom(rt: Runtime, m: Dict, s: State, k: Key)
    requires Lawful(rt) && WellTyped(rt, s) && Lookup(m, k) == Found(rt, s, k) && k in {KMeta, KLinks, KData}
    ensures Cell(rt, Parse(rt, m), k) == Cell(rt, s, k) <==> FieldSurvives(rt, s, k)
  {
    if k == KMeta {
      MetaFrom(rt, m, s);
    } else if k == KLinks {
      LinksFrom(rt, m, s);
    } else {
      DataFrom(rt, m, s);
    }
  }

  lemma HeaderFrom(rt: Runtime, m: Dict, s: State)
    requires Lookup(m, KHeader) == Cell(rt, s, KHeader)
    ensures Cell(rt, Parse(rt, m), KHeader) == Cell(rt, s, KHeader)
  {
    if s.header.Some? { HeaderReprints(rt, s.header.value); }
  }

  lemma PagingFrom(rt: Runtime, m: Dict, s: State)
    requires Lookup(m, KPagination) == Cell(rt, s, KPagination)
    ensures Cell(rt, Parse(rt, m), KPagination) == Cell(rt, s, KPagination)
  {
    if s.pagination.Some? { PagesReprint(rt, s.pagination.value); }
  }

  lemma CursorFrom(rt: Runtime, m: Dict, s: State)
    requires Lookup(m, KCursor) == Cell(rt, s, KCursor)
    ensures Cell(rt, Parse(rt, m), KCursor) == Cell(rt, s, KCursor)
  {
    if s.cursor.Some? { CursorReprints(rt, s.cursor.value); }
  }

  lemma IssueFrom(rt: Runtime, m: Dict, s: State)
    requires Lookup(m, KIssue) == Cell(rt, s, KIssue)
    ensures Cell(rt, Parse(rt, m), KIssue) == Cell(rt, s, KIssue)
  {
    if s.issue.Some? { IssueReprints(s.issue.value); }
  }

  lemma SignatureFrom(rt: Runtime, m: Dict, s: State)
    requires Lookup(m, KSignature) == Cell(rt, s, KSignature)
    ensures Cell(rt, Parse(rt, m), KSignature) == Cell(rt, s, KSignature)
  {
    if s.signature.Some? { SignatureReprints(rt, s.signature.value); }
  }

  lemma ReasonFrom(rt: Runtime, m: Dict, s: State)
    requires Lookup(m, KReason) == Cell(rt, s, KReason)
    ensures Cell(rt, Parse(rt, m), KReason) == Cell(rt, s, KReason)
  {
    if s.reason.Some? { ReasonReprints(s.reason.value); }
  }

  lemma RecordFrom(rt: Runtime, m: Dict, s: State, k: Key)
    requires Lookup(m, k) == Cell(rt, s, k) && k in {KHeader, KPagination, KCursor, KIssue, KSignature, KReason}
    ensures Cell(rt, Parse(rt, m), k) == Cell(rt, s, k)
  {
    if k == KHeader {
      HeaderFrom(rt, m, s);
    } else if k == KPagination {
      PagingFrom(rt, m, s);
    } else if k == KCursor {
      CursorFrom(rt, m, s);
    } else if k == KIssue {
      IssueFrom(rt, m, s);
    } else if k == KSignature {
      SignatureFrom(rt, m, s);
    } else {
      ReasonFrom(rt, m, s);
    }
  }

  lemma NumberFrom(rt: Runtime, m: Dict, s: State)
    ensures Lookup(m, KStatusCode) == Cell(rt, s, KStatusCode) ==>
              Cell(rt, Parse(rt, m), KStatusCode) == Cell(rt, s, KStatusCode)
    ensures Lookup(m, KTotal) == Cell(rt, s, KTotal) ==>
              (Cell(rt, Parse(rt, m), KTotal) == Cell(rt, s, KTotal) <==> s.total >= 0)
  {
  }

  lemma TextFrom(rt: Runtime, m: Dict, s: State)
    ensures Lookup(m, KMessage) == Cell(rt, s, KMessage) ==> Cell(rt, Parse(rt, m), KMessage) == Cell(rt, s, KMessage)
    ensures Lookup(m, KPath) == Cell(rt, s, KPath) ==> Cell(rt, Parse(rt, m), KPath) == Cell(rt, s, KPath)
  {
  }

  lemma DebugFrom(rt: Runtime, m: Dict, s: State)
    requires Lookup(m, KDebug) == Cell(rt, s, KDebug)
    ensures Cell(rt, Parse(rt, m), KDebug) == Cell(rt, s, KDebug)
  {
  }

  lemma ScalarFrom(rt: Runtime, m: Dict, s: State, k: Key)
    requires Lookup(m, k) == Cell(rt, s, k) && k in {KStatusCode, KTotal, KMessage, KPath, KDebug}
    ensures Cell(rt, Parse(rt, m), k) == Cell(rt, s, k) <==> FieldSurvives(rt, s, k)
  {
    if k == KDebug {
      DebugFrom(rt, m, s);
    } else if k == KStatusCode || k == KTotal {
      NumberFrom(rt, m, s);
    } else {
      TextFrom(rt, m, s);
    }
  }

  /** The same for any map that stores the field as build does. */
  lemma FieldFrom(rt: Runtime, m: Dict, s: State, k: Key)
    requires Lawful(rt) && WellTyped(rt, s) && Lookup(m, k) == Found(rt, s, k)
    ensures Cell(rt, Parse(rt, m), k) == Cell(rt, s, k) <==> FieldSurvives(rt, s, k)
  {
    if k in {KMeta, KLinks, KData} {
      ConditionalFrom(rt, m, s, k);
    } else if k in {KHeader, KPagination, KCursor, KIssue, KSignature, KReason} {
      RecordFrom(rt, m, s, k);
    } else if k in {KStatusCode, KTotal, KMessage, KPath, KDebug} {
      ScalarFrom(rt, m, s, k);
    } else {
      NoCell(rt, s, k);
      NoCell(rt, Parse(rt, m), k);
    }
  }

  /**
   * Every field prints the same after a parse, except: a negative total comes back as 0, links none of which is
   * available are dropped, null, false, repairable texts and payloads whose object keys are not sorted do not survive
   * as data, and meta needs a time that reformats to the same text. For those fields the condition is exact.
   */
  lemma FieldReprints(rt: Runtime, s: State, k: Key)
    requires Lawful(rt) && WellTyped(rt, s)
    ensures Cell(rt, Parse(rt, Reread(rt, s)), k) == Cell(rt, s, k) <==> FieldSurvives(rt, s, k)
  {
    RereadFinds(rt, s, k);
    FieldFrom(rt, Reread(rt, s), s, k);
  }

  predicate Survives(rt: Runtime, s: State) {
    s.total >= 0 && LinksSurvive(s.links) && DataSurvives(rt, s) && MetaSurvives(rt, s)
  }

  lemma AllSurvive(rt: Runtime, s: State)
    ensures Survives(rt, s) <==> forall k :: FieldSurvives(rt, s, k)
  {
    if forall k :: FieldSurvives(rt, s, k) {
      assert FieldSurvives(rt, s, KTotal) && FieldSurvives(rt, s, KLinks);
      assert FieldSurvives(rt, s, KData) && FieldSurvives(rt, s, KMeta);
    }
  }

  /** build(unwrap(build(w))) == build(w), payload bytes included, exactly when every field survives. */
  lemma PrintParsePrint(rt: Runtime, s: State)
    requires Lawful(rt) && WellTyped(rt, s)
    ensures Build(rt, Parse(rt, Reread(rt, s))) == Build(rt, s) <==> Survives(rt, s)
  {
    var p := Parse(rt, Reread(rt, s));
    forall k
      ensures Cell(rt, p, k) == Cell(rt, s, k) <==> FieldSurvives(rt, s, k)
    {
      FieldReprints(rt, s, k);
    }
    SameCells(rt, p, s);
    AllSurvive(rt, s);
  }

  lemma BuildLaid(rt: Runtime, s: State)
    requires Lawful(rt)
    ensures Laid(rt, Build(rt, s))
  {
    PrintedLaid(rt, s.data);
    BuildCells(rt, s);
    assert Lookup(Build(rt, s), KData) == Cell(rt, s, KData);
  }

  /** The text JSON prints is accepted by UnwrapJSON and read field by field. */
  lemma UnwrapReadsJSON(rt: Runtime, m: Dict)
    requires Lawful(rt) && Laid(rt, m) && EncodableTop(m) && |m| > 0
    ensures UnwrapText(rt, JsonText(rt, m)) == Some(Parse(rt, ReadBack(rt, m)))
  {
    JsonReads(rt, m);
    var k :| k in m.Keys;
    assert k in ReadBack(rt, m);
  }

  lemma UnwrapAcceptsIff(rt: Runtime, m: Dict)
    requires Lawful(rt) && Laid(rt, m)
    ensures UnwrapText(rt, JsonText(rt, m)).Some? <==> EncodableTop(m) && |m| > 0
  {
    JsonReads(rt, m);
    if EncodableTop(m) && |m| > 0 {
      UnwrapReadsJSON(rt, m);
    } else if EncodableTop(m) {
      assert ReadBack(rt, m) == m;
    }
  }

  /**
   * Print, UnwrapJSON, print again: the text is accepted exactly if the map can be encoded and is not empty, and comes
   * back byte for byte exactly if every field survives as well.
   */
  lemma JsonRoundTripIff(rt: Runtime, s: State)
    requires Lawful(rt) && WellTyped(rt, s)
    ensures var text := JsonText(rt, Build(rt, s));
            var p := UnwrapText(rt, text);
            && (p.Some? <==> EncodableTop(Build(rt, s)) && |Build(rt, s)| > 0)
            && (p.Some? && JsonText(rt, Build(rt, p.value)) == text <==>
                EncodableTop(Build(rt, s)) && |Build(rt, s)| > 0 && Survives(rt, s))
  {
    var m := Build(rt, s);
    BuildLaid(rt, s);
    UnwrapAcceptsIff(rt, m);
    if EncodableTop(m) && |m| > 0 {
      UnwrapReadsJSON(rt, m);
      BuildLaid(rt, Parse(rt, Reread(rt, s)));
      TextsAgree(rt, Build(rt, Parse(rt, Reread(rt, s))), m);
      PrintParsePrint(rt, s);
    }
  }

  // ---- Texts of any origin ----

  /** Which texts are accepted: comments are stripped and lenient JSON is normalized before the text is decoded. */
  lemma AcceptsIffObject(rt: Runtime, text: string)
    ensures UnwrapText(rt, text).Some? <==>
            && !IsEmpty(text)
            && (var v := rt.decode(rt.normalize(rt.strip(text))); v.Some? && v.value.Obj? && v.value.fields != map[])
  {
    var v := rt.decode(rt.normalize(rt.strip(text)));
    if v.Some? && v.value.Obj? && v.value.fields != map[] {
      var k :| k in v.value.fields;
    }
  }

  /** A text that is JSON once it is stripped and normalized is read like every JSON text of that value. */
  lemma LenientText(rt: Runtime, text: string, clean: string)
    requires Lawful(rt) && !IsEmpty(text)
    requires rt.decode(clean).Some? && rt.decode(rt.normalize(rt.strip(text))) == rt.decode(clean)
    ensures UnwrapText(rt, text) == UnwrapText(rt, clean)
    ensures rt.decode(clean).value.Obj? && rt.decode(clean).value.fields != map[] ==>
              UnwrapText(rt, text) == Some(Parse(rt, rt.decode(clean).value.fields))
  {
    if rt.decode(clean).value.Obj? && rt.decode(clean).value.fields != map[] {
      var k :| k in rt.decode(clean).value.fields;
    }
  }
}
