/** The records attached to an envelope and the maps their Respond methods print. */
module Parts {
  import opened Values
  import opened Library

  // ---- header.go ----

  datatype Header = Header(code: Int64, text: string, typez: string, description: string)

  /** WithCode: a code outside 100..599 becomes 500. */
  function ClampCode(v: Int64): Int64 {
    if v < 100 || v > 599 then 500 else v
  }

  /** header.Code on a possibly nil header. */
  function HeaderCode(h: Option<Header>): Int64 {
    if h.Some? then h.value.code else 0
  }

  function HeaderRespond(h: Option<Header>): Dict {
    if h.None? then map[] else
    var m := Put(map[], KCode, When(h.value.code > 0, Int(h.value.code)));
    var m := Put(m, KText, When(!IsEmpty(h.value.text), Str(h.value.text)));
    var m := Put(m, KType, When(!IsEmpty(h.value.typez), Str(h.value.typez)));
    Put(m, KDescription, When(!IsEmpty(h.value.description), Str(h.value.description)))
  }

  const INTERNAL_SERVER_ERROR := Header(500, "Internal Server Error", "Server Error", "")
  const PROCESSING := Header(102, "Processing", "Informational", "")

  // ---- meta.go ----

  datatype Meta = Meta(apiVersion: string, requestID: string, locale: string, requestedTime: Instant,
                       customFields: Dict, deltaValue: Decimal, deltaCnt: Int64)

  const EMPTY_META := Meta("", "", "", 0, map[], Decimal(0, 0), 0)

  const META_KEYS: set<Key> := {KApiVersion, KRequestId, KLocale, KRequestedTime, KCustomFields, KDeltaCnt, KDeltaValue}

  function MetaCell(rt: Runtime, t: Meta, k: Key): Option<Value> {
    match k
    case KApiVersion => When(!IsEmpty(t.apiVersion), Str(t.apiVersion))
    case KRequestId => When(!IsEmpty(t.requestID), Str(t.requestID))
    case KLocale => When(!IsEmpty(t.locale), Str(t.locale))
    case KRequestedTime => When(t.requestedTime != 0, Str(rt.formatTime(t.requestedTime)))
    case KCustomFields => When(|t.customFields| > 0, Obj(t.customFields))
    case KDeltaCnt => When(t.deltaCnt > 0, Int(t.deltaCnt))
    case KDeltaValue => When(t.deltaValue.digits > 0, Num(t.deltaValue))
    case _ => None
  }

  function MetaRespond(rt: Runtime, o: Option<Meta>): Dict {
    if o.None? then map[]
    else map k | k in META_KEYS && MetaCell(rt, o.value, k).Some? :: MetaCell(rt, o.value, k).value
  }

  // ---- cursor.go ----

  datatype Cursor = Cursor(next: string, previous: string, hasNext: bool, hasPrevious: bool, limit: Int64)

  const EMPTY_CURSOR := Cursor("", "", false, false, 0)

  function CursorRespond(c: Cursor): Dict {
    map[KNext := Str(c.next), KPrevious := Str(c.previous), KHasNext := Bool(c.hasNext),
        KHasPrevious := Bool(c.hasPrevious), KLimit := Int(c.limit)]
  }

  // ---- issue.go ----

  datatype Issue = Issue(id: string, fingerprint: string, message: string)

  function IssueRespond(i: Issue): Dict {
    var m := Put(map[], KId, When(!IsEmpty(i.id), Str(i.id)));
    var m := Put(m, KFingerprint, When(!IsEmpty(i.fingerprint), Str(i.fingerprint)));
    Put(m, KMessage, When(!IsEmpty(i.message), Str(i.message)))
  }

  // ---- links.go ----

  datatype Link = Link(href: string, verb: string, title: string, typez: string, templated: bool,
                       name: string, deprecation: string, profile: string, hreflang: string)

  /** Relation name to link; a stored link may be nil. */
  type LinkMap = map<Key, Option<Link>>

  const LINK_KEYS: set<Key> := {KHref, KMethod, KTitle, KType, KTemplated, KName, KDeprecation, KProfile, KHreflang}

  function LinkCell(l: Link, k: Key): Option<Value> {
    match k
    case KHref => When(!IsEmpty(l.href), Str(l.href))
    case KMethod => When(!IsEmpty(l.verb), Str(l.verb))
    case KTitle => When(!IsEmpty(l.title), Str(l.title))
    case KType => When(!IsEmpty(l.typez), Str(l.typez))
    case KTemplated => When(l.templated, Bool(true))
    case KName => When(!IsEmpty(l.name), Str(l.name))
    case KDeprecation => When(!IsEmpty(l.deprecation), Str(l.deprecation))
    case KProfile => When(!IsEmpty(l.profile), Str(l.profile))
    case KHreflang => When(!IsEmpty(l.hreflang), Str(l.hreflang))
    case _ => None
  }

  function LinkRespond(l: Link): Dict {
    map k | k in LINK_KEYS && LinkCell(l, k).Some? :: LinkCell(l, k).value
  }

  /** link.Available. */
  predicate LinkAvailable(l: Option<Link>) {
    l.Some? && !IsEmpty(l.value.href)
  }

  /** links.Available: some entry, available or not. */
  predicate LinksPresent(ls: Option<LinkMap>) {
    ls.Some? && |ls.value| > 0
  }

  predicate SomeLinkAvailable(items: LinkMap) {
    exists rel :: rel in items && LinkAvailable(items[rel])
  }

  function LinksRespond(items: LinkMap): Dict {
    map rel | rel in items && LinkAvailable(items[rel]) :: Obj(LinkRespond(items[rel].value))
  }

  // ---- signature.go ----

  datatype Signature = Signature(algorithm: string, value: string, timestamp: Int64, headers: map<Key, string>)

  function TextDict(m: map<Key, string>): Dict {
    map k | k in m :: Str(m[k])
  }

  function SignatureRespond(s: Signature): Dict {
    var m := Put(map[], KAlgorithm, When(!IsEmpty(s.algorithm), Str(s.algorithm)));
    var m := Put(m, KValue, When(!IsEmpty(s.value), Str(s.value)));
    var m := Put(m, KTimestamp, When(s.timestamp != 0, Int(s.timestamp)));
    Put(m, KHeaders, When(|s.headers| > 0, Obj(TextDict(s.headers))))
  }

  // ---- reason.go ----

  datatype Reason = Reason(code: string, category: string)

  const EMPTY_REASON := Reason("", "")

  function ReasonRespond(r: Reason): Dict {
    map[KCode := Str(r.code), KCategory := Str(r.category)]
  }
}
