/** What the map that build makes tells of a state, and what UnwrapJSON makes of that map, field by field. */
module Printing {
  import opened Values
  import opened Library
  import opened Parts
  import opened Bodies
  import opened Pages
  import opened Envelope
  import opened Unwrap

  // ---- What a map shows ----

  /** The text under the key is t, or there is none because t is blank. */
  predicate ShowsText(m: Dict, k: Key, t: string) {
    (k in m <==> !IsEmpty(t)) && (k in m ==> m[k] == Str(t))
  }

  predicate ShowsNumber(m: Dict, k: Key, n: int, present: bool) {
    (k in m <==> present) && (k in m ==> m[k] == Num(Decimal(n, 0)))
  }

  predicate ShowsFlag(m: Dict, k: Key, b: bool, present: bool) {
    (k in m <==> present) && (k in m ==> m[k] == Bool(b))
  }

  predicate ShowsDict(m: Dict, k: Key, d: Dict) {
    (k in m <==> d != map[]) && (k in m ==> m[k] == Obj(d))
  }

  /** A record is there under the key, or the field is nil. */
  predicate ShowsRecord(m: Dict, k: Key, present: bool) {
    (k in m <==> present) && (k in m ==> m[k].Obj?)
  }

  /** The printed record. */
  function Inside(rt: Runtime, s: State, k: Key): Dict {
    FieldsAt(Build(rt, s), k)
  }

  lemma Stored(rt: Runtime, s: State, k: Key)
    ensures Lookup(Build(rt, s), k) == Cell(rt, s, k)
  {
    BuildCells(rt, s);
  }

  // ---- The fields of the envelope ----

  lemma TextsShown(rt: Runtime, s: State)
    ensures ShowsText(Build(rt, s), KMessage, s.message) && ShowsText(Build(rt, s), KPath, s.path)
  {
    Stored(rt, s, KMessage);
    Stored(rt, s, KPath);
  }

  /** A status is shown if it is positive, a total unless it is negative. */
  lemma NumbersShown(rt: Runtime, s: State)
    ensures ShowsNumber(Build(rt, s), KStatusCode, s.statusCode, s.statusCode > 0)
    ensures ShowsNumber(Build(rt, s), KTotal, s.total, s.total >= 0)
  {
    Stored(rt, s, KStatusCode);
    Stored(rt, s, KTotal);
  }

  lemma DebugShown(rt: Runtime, s: State)
    ensures ShowsDict(Build(rt, s), KDebug, s.debug)
  {
    Stored(rt, s, KDebug);
    if s.debug != map[] {
      var k :| k in s.debug;
    }
  }

  /** The payload is shown unless it counts as empty or is skipped; Bodies says what a reader finds. */
  lemma DataShown(rt: Runtime, s: State, v: Value)
    ensures var m := Build(rt, s);
            && (KData in m <==> Present(s.data) && !s.skipBody)
            && (KData in m && m[KData].Raw? && rt.decode(m[KData].text) == Some(v) <==>
                Present(s.data) && !s.skipBody && ReadsAs(rt, s.data, v))
  {
    Stored(rt, s, KData);
  }

  lemma MainRecords(rt: Runtime, s: State)
    ensures ShowsRecord(Build(rt, s), KHeader, s.header.Some?) && ShowsRecord(Build(rt, s), KMeta, s.meta.Some?)
    ensures ShowsRecord(Build(rt, s), KPagination, s.pagination.Some?)
    ensures ShowsRecord(Build(rt, s), KCursor, s.cursor.Some?)
  {
    Stored(rt, s, KHeader);
    Stored(rt, s, KMeta);
    Stored(rt, s, KPagination);
    Stored(rt, s, KCursor);
  }

  lemma SideRecords(rt: Runtime, s: State)
    ensures ShowsRecord(Build(rt, s), KIssue, s.issue.Some?) && ShowsRecord(Build(rt, s), KReason, s.reason.Some?)
    ensures ShowsRecord(Build(rt, s), KSignature, s.signature.Some?)
    ensures ShowsRecord(Build(rt, s), KLinks, s.links.Some? && s.links.value != map[])
  {
    Stored(rt, s, KIssue);
    Stored(rt, s, KReason);
    Stored(rt, s, KSignature);
    Stored(rt, s, KLinks);
    if s.links.Some? && s.links.value != map[] {
      var rel :| rel in s.links.value;
    }
  }

  /** Which records the map has, and that it has nothing but the fourteen fields. */
  lemma RecordsShown(rt: Runtime, s: State)
    ensures var m := Build(rt, s);
            && ShowsRecord(m, KHeader, s.header.Some?) && ShowsRecord(m, KMeta, s.meta.Some?)
            && ShowsRecord(m, KPagination, s.pagination.Some?) && ShowsRecord(m, KCursor, s.cursor.Some?)
            && ShowsRecord(m, KIssue, s.issue.Some?) && ShowsRecord(m, KReason, s.reason.Some?)
            && ShowsRecord(m, KSignature, s.signature.Some?)
            && ShowsRecord(m, KLinks, s.links.Some? && s.links.value != map[])
    ensures Build(rt, s).Keys <= {KStatusCode, KPath, KMessage, KData, KTotal, KPagination, KMeta, KHeader, KDebug,
                                  KCursor, KIssue, KLinks, KSignature, KReason}
  {
    MainRecords(rt, s);
    SideRecords(rt, s);
  }

  // ---- The records ----

  lemma HeaderShown(rt: Runtime, s: State, h: Header)
    requires s.header == Some(h)
    ensures var m := Inside(rt, s, KHeader);
            && ShowsNumber(m, KCode, h.code, h.code > 0) && ShowsText(m, KText, h.text)
            && ShowsText(m, KType, h.typez) && ShowsText(m, KDescription, h.description)
  {
    Stored(rt, s, KHeader);
  }

  lemma MetaInside(rt: Runtime, s: State, t: Meta)
    requires s.meta == Some(t)
    ensures Inside(rt, s, KMeta) == MetaRespond(rt, Some(t))
  {
    Stored(rt, s, KMeta);
  }

  lemma MetaField(rt: Runtime, s: State, t: Meta, k: Key)
    requires s.meta == Some(t) && k in META_KEYS
    ensures Lookup(Inside(rt, s, KMeta), k) == MetaCell(rt, t, k)
  {
    MetaInside(rt, s, t);
    MetaLookup(rt, t, k);
  }

  lemma MetaTexts(rt: Runtime, s: State, t: Meta)
    requires s.meta == Some(t)
    ensures var m := Inside(rt, s, KMeta);
            && ShowsText(m, KApiVersion, t.apiVersion) && ShowsText(m, KRequestId, t.requestID)
            && ShowsText(m, KLocale, t.locale)
  {
    MetaField(rt, s, t, KApiVersion);
    MetaField(rt, s, t, KRequestId);
    MetaField(rt, s, t, KLocale);
  }

  lemma MetaRest(rt: Runtime, s: State, t: Meta)
    requires s.meta == Some(t)
    ensures var m := Inside(rt, s, KMeta);
            && ShowsDict(m, KCustomFields, t.customFields) && ShowsNumber(m, KDeltaCnt, t.deltaCnt, t.deltaCnt > 0)
            && (KRequestedTime in m <==> t.requestedTime != 0)
            && (KRequestedTime in m ==> m[KRequestedTime] == Str(rt.formatTime(t.requestedTime)))
            && (KDeltaValue in m <==> t.deltaValue.digits > 0)
            && (KDeltaValue in m ==> m[KDeltaValue] == Num(t.deltaValue))
  {
    MetaField(rt, s, t, KCustomFields);
    MetaField(rt, s, t, KDeltaCnt);
    MetaField(rt, s, t, KRequestedTime);
    MetaField(rt, s, t, KDeltaValue);
    if t.customFields != map[] {
      var k :| k in t.customFields;
    }
  }

  lemma MetaShown(rt: Runtime, s: State, t: Meta)
    requires s.meta == Some(t)
    ensures var m := Inside(rt, s, KMeta);
            && ShowsText(m, KApiVersion, t.apiVersion) && ShowsText(m, KRequestId, t.requestID)
            && ShowsText(m, KLocale, t.locale) && ShowsDict(m, KCustomFields, t.customFields)
            && ShowsNumber(m, KDeltaCnt, t.deltaCnt, t.deltaCnt > 0)
            && (KRequestedTime in m <==> t.requestedTime != 0)
            && (KRequestedTime in m ==> m[KRequestedTime] == Str(rt.formatTime(t.requestedTime)))
            && (KDeltaValue in m <==> t.deltaValue.digits > 0)
            && (KDeltaValue in m ==> m[KDeltaValue] == Num(t.deltaValue))
  {
    MetaTexts(rt, s, t);
    MetaRest(rt, s, t);
  }

  lemma PagesShown(rt: Runtime, s: State, p: PageState)
    requires s.pagination == Some(p)
    ensures var m := Inside(rt, s, KPagination);
            && ShowsNumber(m, KPage, p.page, true) && ShowsNumber(m, KPerPage, p.perPage, true)
            && ShowsNumber(m, KTotalPages, p.totalPages, true) && ShowsNumber(m, KTotalItems, p.totalItems, true)
            && ShowsFlag(m, KIsLast, p.isLast, true)
  {
    Stored(rt, s, KPagination);
  }

  /** The texts of a cursor and of a reason are shown even if they are blank. */
  lemma CursorShown(rt: Runtime, s: State, c: Cursor)
    requires s.cursor == Some(c)
    ensures var m := Inside(rt, s, KCursor);
            && Lookup(m, KNext) == Some(Str(c.next)) && Lookup(m, KPrevious) == Some(Str(c.previous))
            && ShowsFlag(m, KHasNext, c.hasNext, true) && ShowsFlag(m, KHasPrevious, c.hasPrevious, true)
            && ShowsNumber(m, KLimit, c.limit, true)
  {
    Stored(rt, s, KCursor);
  }

  lemma ReasonShown(rt: Runtime, s: State, r: Reason)
    requires s.reason == Some(r)
    ensures var m := Inside(rt, s, KReason);
            Lookup(m, KCode) == Some(Str(r.code)) && Lookup(m, KCategory) == Some(Str(r.category))
  {
    Stored(rt, s, KReason);
  }

  lemma IssueShown(rt: Runtime, s: State, i: Issue)
    requires s.issue == Some(i)
    ensures var m := Inside(rt, s, KIssue);
            ShowsText(m, KId, i.id) && ShowsText(m, KFingerprint, i.fingerprint) && ShowsText(m, KMessage, i.message)
  {
    Stored(rt, s, KIssue);
  }

  predicate ShowsTexts(m: Dict, k: Key, texts: map<Key, string>) {
    && (k in m <==> texts != map[])
    && (k in m ==>
          && m[k].Obj? && m[k].fields.Keys == texts.Keys
          && forall j :: j in texts ==> m[k].fields[j] == Str(texts[j]))
  }

  lemma SignatureShown(rt: Runtime, s: State, g: Signature)
    requires s.signature == Some(g)
    ensures var m := Inside(rt, s, KSignature);
            && ShowsText(m, KAlgorithm, g.algorithm) && ShowsText(m, KValue, g.value)
            && ShowsNumber(m, KTimestamp, g.timestamp, g.timestamp != 0) && ShowsTexts(m, KHeaders, g.headers)
  {
    Stored(rt, s, KSignature);
    if g.headers != map[] {
      var k :| k in g.headers;
    }
  }

  predicate ShowsLink(m: Dict, l: Link) {
    && ShowsText(m, KHref, l.href) && ShowsText(m, KMethod, l.verb) && ShowsText(m, KTitle, l.title)
    && ShowsText(m, KType, l.typez) && ShowsFlag(m, KTemplated, true, l.templated) && ShowsText(m, KName, l.name)
    && ShowsText(m, KDeprecation, l.deprecation) && ShowsText(m, KProfile, l.profile)
    && ShowsText(m, KHreflang, l.hreflang)
  }

  lemma LinkTexts(l: Link)
    ensures var m := LinkRespond(l);
            && ShowsText(m, KHref, l.href) && ShowsText(m, KMethod, l.verb) && ShowsText(m, KTitle, l.title)
            && ShowsText(m, KType, l.typez)
  {
    LinkLookup(l, KHref);
    LinkLookup(l, KMethod);
    LinkLookup(l, KTitle);
    LinkLookup(l, KType);
  }

  lemma LinkDetails(l: Link)
    ensures var m := LinkRespond(l);
            && ShowsFlag(m, KTemplated, true, l.templated) && ShowsText(m, KName, l.name)
            && ShowsText(m, KDeprecation, l.deprecation) && ShowsText(m, KProfile, l.profile)
            && ShowsText(m, KHreflang, l.hreflang)
  {
    LinkLookup(l, KTemplated);
    LinkLookup(l, KName);
    LinkLookup(l, KDeprecation);
    LinkLookup(l, KProfile);
    LinkLookup(l, KHreflang);
  }

  lemma LinkFields(l: Link)
    ensures ShowsLink(LinkRespond(l), l)
  {
    LinkTexts(l);
    LinkDetails(l);
  }

  lemma LinksInside(rt: Runtime, s: State)
    requires s.links.Some?
    ensures Inside(rt, s, KLinks) == LinksRespond(s.links.value)
  {
    Stored(rt, s, KLinks);
    if s.links.value == map[] { assert LinksRespond(map[]) == map[]; }
  }

  /** A relation is shown exactly if its link has an address. */
  lemma LinkShown(rt: Runtime, s: State, rel: Key)
    requires s.links.Some?
    ensures var (m, items) := (Inside(rt, s, KLinks), s.links.value);
            && (rel in m <==> rel in items && items[rel].Some? && !IsEmpty(items[rel].value.href))
            && (rel in m ==> m[rel].Obj? && ShowsLink(m[rel].fields, items[rel].value))
  {
    LinksInside(rt, s);
    var items := s.links.value;
    if rel in items && items[rel].Some? { LinkFields(items[rel].value); }
  }

  // ---- What UnwrapJSON makes of the printed map ----

  /** A blank text is not printed, and comes back as the empty one; so do numbers below 1 as 0. */
  function Visible(t: string): string {
    if IsEmpty(t) then "" else t
  }

  function Positive(n: Int64): Int64 {
    if n > 0 then n else 0
  }

  /** The envelope UnwrapJSON makes of the map that build printed. */
  function Back(rt: Runtime, s: State): State {
    Parse(rt, Reread(rt, s))
  }

  lemma NumbersBack(rt: Runtime, s: State)
    ensures Back(rt, s).statusCode == Positive(s.statusCode) && Back(rt, s).total == Positive(s.total)
  {
    RereadFinds(rt, s, KStatusCode);
    RereadFinds(rt, s, KTotal);
  }

  lemma TextsBack(rt: Runtime, s: State)
    ensures Back(rt, s).message == Visible(s.message) && Back(rt, s).path == Visible(s.path)
  {
    RereadFinds(rt, s, KMessage);
    RereadFinds(rt, s, KPath);
  }

  lemma DebugBack(rt: Runtime, s: State)
    ensures Back(rt, s).debug == s.debug
  {
    RereadFinds(rt, s, KDebug);
  }

  lemma ScalarsBack(rt: Runtime, s: State)
    ensures var p := Back(rt, s);
            && p.statusCode == Positive(s.statusCode) && p.total == Positive(s.total)
            && p.message == Visible(s.message) && p.path == Visible(s.path) && p.debug == s.debug
            && p.errors.None? && !p.skipBody
  {
    NumbersBack(rt, s);
    TextsBack(rt, s);
    DebugBack(rt, s);
  }

  /** Every field but the payload is read as it was stored, and a record is parsed from its own map. */
  lemma RecordRead(rt: Runtime, s: State, k: Key, d: Option<Dict>)
    requires k != KData && Cell(rt, s, k) == if d.Some? then Some(Obj(d.value)) else None
    ensures ObjAt(Reread(rt, s), k) == d && (d.Some? ==> Reread(rt, s)[k].fields == d.value)
  {
    RereadFinds(rt, s, k);
  }

  lemma HeaderParsed(rt: Runtime, h: Header)
    ensures ParseHeader(rt, HeaderRespond(Some(h))) ==
            Header(Positive(h.code), Visible(h.text), Visible(h.typez), Visible(h.description))
  {
  }

  lemma HeaderBack(rt: Runtime, s: State)
    ensures Back(rt, s).header ==
            if s.header.None? then None
            else var h := s.header.value;
                 Some(Header(Positive(h.code), Visible(h.text), Visible(h.typez), Visible(h.description)))
  {
    RecordRead(rt, s, KHeader, When(s.header.Some?, HeaderRespond(s.header)));
    if s.header.Some? { HeaderParsed(rt, s.header.value); }
  }

  /** The time goes through its format, and a delta that is not positive is lost. */
  function MetaBackFrom(rt: Runtime, t: Meta): Meta {
    Meta(Visible(t.apiVersion), Visible(t.requestID), Visible(t.locale),
         if t.requestedTime == 0 then 0 else rt.parseTime(rt.formatTime(t.requestedTime)), t.customFields,
         if t.deltaValue.digits > 0 then t.deltaValue else Decimal(0, 0), Positive(t.deltaCnt))
  }

  lemma MetaTextsParsed(rt: Runtime, t: Meta, m: Dict)
    requires Lookup(m, KApiVersion) == MetaCell(rt, t, KApiVersion) && Lookup(m, KLocale) == MetaCell(rt, t, KLocale)
    requires Lookup(m, KRequestId) == MetaCell(rt, t, KRequestId)
    ensures var p := ParseMeta(rt, m);
            && p.apiVersion == Visible(t.apiVersion) && p.requestID == Visible(t.requestID)
            && p.locale == Visible(t.locale)
  {
  }

  lemma MetaTimeParsed(rt: Runtime, t: Meta, m: Dict)
    requires Lookup(m, KRequestedTime) == MetaCell(rt, t, KRequestedTime)
    requires Lookup(m, KCustomFields) == MetaCell(rt, t, KCustomFields)
    ensures ParseMeta(rt, m).requestedTime == MetaBackFrom(rt, t).requestedTime
    ensures ParseMeta(rt, m).customFields == t.customFields
  {
  }

  lemma MetaDeltaParsed(rt: Runtime, t: Meta, m: Dict)
    requires FloatLiteral(rt, t.deltaValue)
    requires Lookup(m, KDeltaValue) == MetaCell(rt, t, KDeltaValue)
    requires Lookup(m, KDeltaCnt) == MetaCell(rt, t, KDeltaCnt)
    ensures ParseMeta(rt, m).deltaValue == MetaBackFrom(rt, t).deltaValue
    ensures ParseMeta(rt, m).deltaCnt == Positive(t.deltaCnt)
  {
  }

  lemma MetaParsed(rt: Runtime, t: Meta)
    requires FloatLiteral(rt, t.deltaValue)
    ensures ParseMeta(rt, MetaRespond(rt, Some(t))) == MetaBackFrom(rt, t)
  {
    var m := MetaRespond(rt, Some(t));
    forall k | k in META_KEYS
      ensures Lookup(m, k) == MetaCell(rt, t, k)
    {
      MetaLookup(rt, t, k);
    }
    assert KApiVersion in META_KEYS && KRequestId in META_KEYS && KLocale in META_KEYS;
    assert KRequestedTime in META_KEYS && KCustomFields in META_KEYS;
    assert KDeltaValue in META_KEYS && KDeltaCnt in META_KEYS;
    MetaTextsParsed(rt, t, m);
    MetaTimeParsed(rt, t, m);
    MetaDeltaParsed(rt, t, m);
  }

  lemma MetaBack(rt: Runtime, s: State)
    requires s.meta.Some? ==> FloatLiteral(rt, s.meta.value.deltaValue)
    ensures Back(rt, s).meta == if s.meta.None? then None else Some(MetaBackFrom(rt, s.meta.value))
  {
    RecordRead(rt, s, KMeta, When(s.meta.Some?, MetaRespond(rt, s.meta)));
    if s.meta.Some? { MetaParsed(rt, s.meta.value); }
  }

  lemma PagesBack(rt: Runtime, s: State)
    ensures Back(rt, s).pagination == s.pagination
  {
    RecordRead(rt, s, KPagination, When(s.pagination.Some?, PagesRespond(s.pagination)));
    if s.pagination.Some? { PagesReprint(rt, s.pagination.value); }
  }

  lemma CursorBack(rt: Runtime, s: State)
    ensures Back(rt, s).cursor == s.cursor
  {
    RecordRead(rt, s, KCursor, if s.cursor.Some? then Some(CursorRespond(s.cursor.value)) else None);
    if s.cursor.Some? { CursorReprints(rt, s.cursor.value); }
  }

  lemma ReasonBack(rt: Runtime, s: State)
    ensures Back(rt, s).reason == s.reason
  {
    RecordRead(rt, s, KReason, if s.reason.Some? then Some(ReasonRespond(s.reason.value)) else None);
    if s.reason.Some? { ReasonReprints(s.reason.value); }
  }

  lemma IssueParsed(i: Issue)
    ensures ParseIssue(IssueRespond(i)) == Issue(Visible(i.id), Visible(i.fingerprint), Visible(i.message))
  {
  }

  lemma IssueBack(rt: Runtime, s: State)
    ensures Back(rt, s).issue ==
            if s.issue.None? then None
            else var i := s.issue.value; Some(Issue(Visible(i.id), Visible(i.fingerprint), Visible(i.message)))
  {
    RecordRead(rt, s, KIssue, if s.issue.Some? then Some(IssueRespond(s.issue.value)) else None);
    if s.issue.Some? { IssueParsed(s.issue.value); }
  }

  lemma SignatureParsed(rt: Runtime, g: Signature)
    ensures ParseSignature(rt, SignatureRespond(g)) ==
            Signature(Visible(g.algorithm), Visible(g.value), g.timestamp, g.headers)
  {
    TextsReprint(g.headers);
  }

  lemma SignatureBack(rt: Runtime, s: State)
    ensures Back(rt, s).signature ==
            if s.signature.None? then None
            else var g := s.signature.value;
                 Some(Signature(Visible(g.algorithm), Visible(g.value), g.timestamp, g.headers))
  {
    RecordRead(rt, s, KSignature, if s.signature.Some? then Some(SignatureRespond(s.signature.value)) else None);
    if s.signature.Some? { SignatureParsed(rt, s.signature.value); }
  }

  /** A link as it comes back. */
  function LinkBack(l: Link): Link {
    Link(Visible(l.href), Visible(l.verb), Visible(l.title), Visible(l.typez), l.templated, Visible(l.name),
         Visible(l.deprecation), Visible(l.profile), Visible(l.hreflang))
  }

  lemma LinkParsed(l: Link)
    ensures ParseLink(LinkRespond(l)) == LinkBack(l)
  {
    LinkTexts(l);
    LinkDetails(l);
  }

  lemma LinksParsed(items: LinkMap, rel: Key)
    ensures var q := ParseLinks(LinksRespond(items));
            && (rel in q <==> rel in items && items[rel].Some? && !IsEmpty(items[rel].value.href))
            && (rel in q ==> q[rel] == Some(LinkBack(items[rel].value)))
  {
    if rel in items && items[rel].Some? { LinkParsed(items[rel].value); }
  }

  lemma LinksRead(rt: Runtime, s: State)
    ensures Back(rt, s).links ==
            if s.links.Some? && s.links.value != map[] then Some(ParseLinks(LinksRespond(s.links.value))) else None
  {
    if s.links.Some? && s.links.value != map[] {
      var rel :| rel in s.links.value;
    }
    RecordRead(rt, s, KLinks, if LinksPresent(s.links) then Some(LinksRespond(s.links.value)) else None);
  }

  /** Links without an address are dropped, and an empty collection comes back as nil. */
  lemma LinksBack(rt: Runtime, s: State, rel: Key)
    ensures var q := Back(rt, s).links;
            && (q.Some? <==> s.links.Some? && s.links.value != map[])
            && (q.Some? ==>
                  var items := s.links.value;
                  && (rel in q.value <==> rel in items && items[rel].Some? && !IsEmpty(items[rel].value.href))
                  && (rel in q.value ==> q.value[rel] == Some(LinkBack(items[rel].value))))
  {
    LinksRead(rt, s);
    if s.links.Some? { LinksParsed(s.links.value, rel); }
  }

  // ---- Maps of any origin ----

  /** A value of another type than the field has is ignored. */
  lemma WrongTypesIgnored(rt: Runtime, m: Dict)
    ensures var p := Parse(rt, m);
            && (!(KMessage in m && m[KMessage].Str?) ==> p.message == "")
            && (!(KPath in m && m[KPath].Str?) ==> p.path == "")
            && (!(KStatusCode in m && m[KStatusCode].Num?) ==> p.statusCode == 0)
            && (!(KTotal in m && m[KTotal].Num?) ==> p.total == 0)
            && (!(KDebug in m && m[KDebug].Obj?) ==> p.debug == map[])
            && (KData !in m ==> p.data == Nil)
  {
  }

  lemma RecordsNeedObjects(rt: Runtime, m: Dict)
    ensures var p := Parse(rt, m);
            && (p.header.Some? <==> KHeader in m && m[KHeader].Obj?)
            && (p.meta.Some? <==> KMeta in m && m[KMeta].Obj?)
            && (p.pagination.Some? <==> KPagination in m && m[KPagination].Obj?)
            && (p.cursor.Some? <==> KCursor in m && m[KCursor].Obj?)
            && (p.issue.Some? <==> KIssue in m && m[KIssue].Obj?)
            && (p.signature.Some? <==> KSignature in m && m[KSignature].Obj?)
            && (p.reason.Some? <==> KReason in m && m[KReason].Obj?)
            && (p.links.Some? <==> KLinks in m && m[KLinks].Obj?)
  {
  }

  /** A number outside int64, or written with a fraction, goes through float64. */
  lemma IntegersRead(rt: Runtime, m: Dict, d: Decimal)
    requires Lookup(m, KTotal) == Some(Num(d))
    ensures var n := Parse(rt, m).total;
            if d.scale == 0 && -0x8000_0000_0000_0000 <= d.digits <= 0x7fff_ffff_ffff_ffff then n == d.digits
            else n == if rt.floatToInt(d).Some? then rt.floatToInt(d).value else 0
  {
  }
}
