/**
 * Clone on an explicit heap: structs and maps live at addresses, so that what a clone shares with its original can be
 * stated, and what a write through one of them does to the other.
 */
module CloneHeap {
  import opened Values
  import opened Library
  import opened Parts
  import opened Pages
  import opened Envelope
  import opened Normalize

  // ---- The heap ----

  type Ptr = Option<nat>

  /** Link structs are numbered by the allocation that made them and the relation they were made for. */
  datatype LinkAddr = LinkAddr(batch: nat, rel: Key)

  type Items = map<Key, Option<LinkAddr>>

  /** A struct whose map field is a pointer; that field of the record itself is unused. */
  datatype MetaBox = MetaBox(fields: Meta, custom: Ptr)
  datatype SignBox = SignBox(fields: Signature, headers: Ptr)

  type Metas = map<nat, MetaBox>
  type Signs = map<nat, SignBox>
  type Dicts = map<nat, Dict>
  type Texts = map<nat, map<Key, string>>
  type Collections = map<nat, Items>
  type Links = map<LinkAddr, Link>
  type Headers = map<nat, Header>

  /**
   * One store for each type of struct or map; next is the first unused address. The package-level headers (OK,
   * BadRequest, InternalServerError, ...) are structs like any other, and every wrapper may point to them.
   */
  datatype Heap = Heap(
    next: nat, package: Headers, headers: Headers, pages: map<nat, PageState>, issues: map<nat, Issue>,
    cursors: map<nat, Cursor>, reasons: map<nat, Reason>, metas: Metas, signatures: Signs, collections: Collections,
    links: Links, dicts: Dicts, texts: Texts)

  /**
   * A wrapper struct: the fields that are no pointers (the rest of that record is unused), the pointers, and the cached
   * map. Its cells are values but for three: the debug map, the custom fields and the header map that it refers to are
   * the ones that the wrapper had when it was built.
   */
  datatype Struct = Struct(
    plain: State, header: Ptr, meta: Ptr, pagination: Ptr, issue: Ptr, cursor: Ptr, signature: Ptr, reason: Ptr,
    links: Ptr, debug: Ptr, cached: Option<Dict>, hash: Hash, heldDebug: Ptr, heldCustom: Ptr, heldTexts: Ptr)

  function At<T>(m: map<nat, T>, p: Ptr): Option<T> {
    if p.Some? && p.value in m then Some(m[p.value]) else None
  }

  function DictAt(dicts: Dicts, p: Ptr): Dict {
    if At(dicts, p).Some? then At(dicts, p).value else map[]
  }

  function TextsAt(texts: Texts, p: Ptr): map<Key, string> {
    if At(texts, p).Some? then At(texts, p).value else map[]
  }

  function Custom(metas: Metas, p: Ptr): Ptr {
    if At(metas, p).Some? then At(metas, p).value.custom else None
  }

  function HeaderMap(signs: Signs, p: Ptr): Ptr {
    if At(signs, p).Some? then At(signs, p).value.headers else None
  }

  function ItemsAt(collections: Collections, p: Ptr): Items {
    if At(collections, p).Some? then At(collections, p).value else map[]
  }

  function MetaAt(metas: Metas, dicts: Dicts, p: Ptr): Option<Meta> {
    if At(metas, p).None? then None
    else Some(At(metas, p).value.fields.(customFields := DictAt(dicts, Custom(metas, p))))
  }

  function SignatureAt(signs: Signs, texts: Texts, p: Ptr): Option<Signature> {
    if At(signs, p).None? then None
    else Some(At(signs, p).value.fields.(headers := TextsAt(texts, HeaderMap(signs, p))))
  }

  function LinkAt(links: Links, a: Option<LinkAddr>): Option<Link> {
    if a.Some? && a.value in links then Some(links[a.value]) else None
  }

  /** The links a collection shows, given the store of link structs. */
  function Shown(links: Links, items: Items): LinkMap {
    map rel | rel in items :: LinkAt(links, items[rel])
  }

  function LinksAt(collections: Collections, links: Links, p: Ptr): Option<LinkMap> {
    if At(collections, p).None? then None else Some(Shown(links, ItemsAt(collections, p)))
  }

  /** The state that a struct stands for. */
  function View(h: Heap, w: Struct): State {
    w.plain.(header := At(h.headers, w.header), meta := MetaAt(h.metas, h.dicts, w.meta),
             pagination := At(h.pages, w.pagination), issue := At(h.issues, w.issue),
             cursor := At(h.cursors, w.cursor), signature := SignatureAt(h.signatures, h.texts, w.signature),
             reason := At(h.reasons, w.reason), links := LinksAt(h.collections, h.links, w.links),
             debug := DictAt(h.dicts, w.debug))
  }

  /** What a reference of the cached map leads to; now is the pointer that the wrapper has. */
  function HeldAt(dicts: Dicts, p: Ptr, now: Ptr): Held {
    if p.None? then Absent else if p == now then Held.Live else Left(DictAt(dicts, p))
  }

  function HeldTextsAt(texts: Texts, p: Ptr, now: Ptr): Held {
    if p.None? then Absent else if p == now then Held.Live else Left(TextDict(TextsAt(texts, p)))
  }

  function CachedAt(h: Heap, w: Struct): Option<Image> {
    if w.cached.None? then None
    else Some(Image(w.cached.value, HeldAt(h.dicts, w.heldDebug, w.debug),
                    HeldAt(h.dicts, w.heldCustom, Custom(h.metas, w.meta)),
                    HeldTextsAt(h.texts, w.heldTexts, HeaderMap(h.signatures, w.signature))))
  }

  function Snap(h: Heap, w: Struct): Snapshot {
    Snapshot(View(h, w), CachedAt(h, w), w.hash)
  }

  // ---- Well-formed structs ----

  /** The pointer is nil or leads to something allocated. */
  predicate Live<T>(m: map<nat, T>, p: Ptr, next: nat) {
    p.Some? ==> p.value in m && p.value < next
  }

  predicate Differ(p: Ptr, q: Ptr) {
    p.None? || p != q
  }

  /** The package-level headers are as the package made them. */
  predicate Pristine(headers: Headers, package: Headers, next: nat) {
    forall g :: g in package ==> g < next && g in headers && headers[g] == package[g]
  }

  predicate HeaderLive(headers: Headers, package: Headers, p: Ptr, next: nat) {
    Live(headers, p, next) && Pristine(headers, package, next)
  }

  predicate MetaLive(metas: Metas, dicts: Dicts, meta: Ptr, debug: Ptr, next: nat) {
    && Live(metas, meta, next) && Live(dicts, debug, next) && Live(dicts, Custom(metas, meta), next)
    && Differ(Custom(metas, meta), debug)
  }

  predicate SignatureLive(signs: Signs, texts: Texts, p: Ptr, next: nat) {
    Live(signs, p, next) && Live(texts, HeaderMap(signs, p), next)
  }

  /** Every relation has its own link struct. */
  predicate ItemsLive(links: Links, items: Items, next: nat) {
    && (forall rel :: rel in items && items[rel].Some? ==> items[rel].value in links && items[rel].value.batch < next)
    && (forall a, b :: a in items && b in items && a != b && items[a].Some? ==> items[a] != items[b])
  }

  predicate LinksLive(collections: Collections, links: Links, p: Ptr, next: nat) {
    Live(collections, p, next) && ItemsLive(links, ItemsAt(collections, p), next)
  }

  predicate LeavesLive(h: Heap, w: Struct) {
    && HeaderLive(h.headers, h.package, w.header, h.next) && Live(h.pages, w.pagination, h.next)
    && Live(h.issues, w.issue, h.next) && Live(h.cursors, w.cursor, h.next) && Live(h.reasons, w.reason, h.next)
  }

  /** A debug map is never used as custom fields, nor the other way round. */
  predicate HeldLive(metas: Metas, dicts: Dicts, meta: Ptr, debug: Ptr, hd: Ptr, hc: Ptr, next: nat) {
    && Live(dicts, hd, next) && Live(dicts, hc, next) && Differ(hd, Custom(metas, meta)) && Differ(hc, debug)
  }

  predicate Valid(h: Heap, w: Struct) {
    && HeldLive(h.metas, h.dicts, w.meta, w.debug, w.heldDebug, w.heldCustom, h.next)
    && Live(h.texts, w.heldTexts, h.next)
    && LeavesLive(h, w) && MetaLive(h.metas, h.dicts, w.meta, w.debug, h.next)
    && SignatureLive(h.signatures, h.texts, w.signature, h.next) && LinksLive(h.collections, h.links, w.links, h.next)
  }

  // ---- Structs with nothing in common ----

  /** Two header pointers lead to different structs, unless to a package-level one. */
  predicate HeaderApart(package: Headers, p: Ptr, q: Ptr) {
    p.Some? && p == q ==> p.value in package
  }

  predicate LeavesApart(h: Heap, v: Struct, w: Struct) {
    && HeaderApart(h.package, v.header, w.header) && Differ(v.pagination, w.pagination) && Differ(v.issue, w.issue)
    && Differ(v.cursor, w.cursor) && Differ(v.reason, w.reason) && Differ(v.signature, w.signature)
  }

  predicate MetaApart(metas: Metas, meta: Ptr, debug: Ptr, meta': Ptr, debug': Ptr) {
    && Differ(meta, meta') && Differ(debug, debug') && Differ(Custom(metas, meta), debug')
    && Differ(debug, Custom(metas, meta')) && Differ(Custom(metas, meta), Custom(metas, meta'))
  }

  /** What the cached map of one struct refers to is not what the other one can write. */
  predicate HeldApart(metas: Metas, hd: Ptr, hc: Ptr, meta: Ptr, debug: Ptr) {
    && Differ(hd, debug) && Differ(hd, Custom(metas, meta)) && Differ(hc, debug) && Differ(hc, Custom(metas, meta))
  }

  predicate ItemsApart(a: Items, b: Items) {
    forall r, t :: r in a && t in b && a[r].Some? ==> a[r] != b[t]
  }

  predicate LinksApart(collections: Collections, p: Ptr, q: Ptr) {
    Differ(p, q) && ItemsApart(ItemsAt(collections, p), ItemsAt(collections, q))
  }

  /** No struct and no map in common, except perhaps a package-level header and the header map of a signature. */
  predicate Apart(h: Heap, v: Struct, w: Struct) {
    && LeavesApart(h, v, w) && MetaApart(h.metas, v.meta, v.debug, w.meta, w.debug)
    && HeldApart(h.metas, v.heldDebug, v.heldCustom, w.meta, w.debug)
    && HeldApart(h.metas, w.heldDebug, w.heldCustom, v.meta, v.debug)
    && LinksApart(h.collections, v.links, w.links)
  }

  /** Neither the signature of v nor its cached map refers to the header map of w. */
  predicate HeadersApart(h: Heap, v: Struct, w: Struct) {
    && Differ(HeaderMap(h.signatures, v.signature), HeaderMap(h.signatures, w.signature))
    && Differ(v.heldTexts, HeaderMap(h.signatures, w.signature))
  }

  // ---- New collections of links ----

  /** The collection and the link structs that batch n allocates for the links ls. */
  function NewItems(ls: LinkMap, n: nat): Items {
    map rel | rel in ls :: if ls[rel].Some? then Some(LinkAddr(n, rel)) else None
  }

  function NewAddrs(ls: LinkMap, n: nat): (s: set<LinkAddr>)
    ensures forall a :: a in s ==> a.batch == n && a.rel in ls && ls[a.rel].Some?
  {
    set rel | rel in ls && ls[rel].Some? :: LinkAddr(n, rel)
  }

  function NewLinks(links: Links, ls: LinkMap, n: nat): Links {
    links + map a: LinkAddr | a in NewAddrs(ls, n) :: ls[a.rel].value
  }

  /** The links of a collection that are not nil. */
  function DropNil(items: LinkMap): LinkMap {
    map rel | rel in items && items[rel].Some? :: items[rel]
  }

  // ---- Clone ----

  function Copied<T>(m: map<nat, T>, p: Ptr, n: nat): map<nat, T> {
    if At(m, p).Some? then m[n := At(m, p).value] else m
  }

  function Renamed(p: Ptr, n: nat): Ptr {
    if p.Some? then Some(n) else None
  }

  function CopiedMetas(metas: Metas, p: Ptr, n: nat): Metas {
    if At(metas, p).Some? then metas[n := At(metas, p).value.(custom := Renamed(Custom(metas, p), n))] else metas
  }

  /** What links.Clone copies. */
  function Kept(collections: Collections, links: Links, p: Ptr): LinkMap {
    DropNil(Shown(links, ItemsAt(collections, p)))
  }

  function CopiedCollections(collections: Collections, links: Links, p: Ptr, n: nat): Collections {
    if At(collections, p).Some? then collections[n := NewItems(Kept(collections, links, p), n)] else collections
  }

  /** The heap after Clone: every struct and map is copied, except the header map inside the signature. */
  function AfterClone(h: Heap, w: Struct): Heap {
    var n := h.next;
    Heap(n + 2, h.package, Copied(h.headers, w.header, n), Copied(h.pages, w.pagination, n),
         Copied(h.issues, w.issue, n), Copied(h.cursors, w.cursor, n), Copied(h.reasons, w.reason, n),
         CopiedMetas(h.metas, w.meta, n), Copied(h.signatures, w.signature, n),
         CopiedCollections(h.collections, h.links, w.links, n),
         NewLinks(h.links, Kept(h.collections, h.links, w.links), n),
         Copied(Copied(h.dicts, Custom(h.metas, w.meta), n), w.debug, n + 1), h.texts)
  }

  /** The clone starts with an empty cache. */
  function Clone(h: Heap, w: Struct): Struct {
    var n := h.next;
    Struct(w.plain, Renamed(w.header, n), Renamed(w.meta, n), Renamed(w.pagination, n), Renamed(w.issue, n),
           Renamed(w.cursor, n), Renamed(w.signature, n), Renamed(w.reason, n), Renamed(w.links, n),
           Renamed(w.debug, n + 1), None, NoHash, None, None, None)
  }

  /** The state of a clone: nil links are dropped. */
  function Cloned(s: State): State {
    s.(links := if s.links.None? then None else Some(DropNil(s.links.value)))
  }

  // ---- The clone and its original ----

  /** A copied pointer leads to the same contents, and the old one to what it led to. */
  lemma CopiedAt<T>(m: map<nat, T>, p: Ptr, n: nat)
    requires Live(m, p, n)
    ensures var m' := Copied(m, p, n);
            && At(m', Renamed(p, n)) == At(m, p) == At(m', p)
            && Live(m', p, n) && Live(m', Renamed(p, n), n + 1) && Differ(p, Renamed(p, n)) && Differ(Renamed(p, n), p)
  {
  }

  lemma CopiedHeader(headers: Headers, package: Headers, p: Ptr, n: nat)
    requires HeaderLive(headers, package, p, n)
    ensures var hs := Copied(headers, p, n);
            && At(hs, Renamed(p, n)) == At(headers, p) == At(hs, p)
            && HeaderLive(hs, package, p, n) && HeaderLive(hs, package, Renamed(p, n), n + 1)
            && HeaderApart(package, p, Renamed(p, n)) && HeaderApart(package, Renamed(p, n), p)
  {
  }

  lemma CopiedMeta(metas: Metas, dicts: Dicts, meta: Ptr, debug: Ptr, n: nat)
    requires MetaLive(metas, dicts, meta, debug, n)
    ensures var metas' := CopiedMetas(metas, meta, n);
            var dicts' := Copied(Copied(dicts, Custom(metas, meta), n), debug, n + 1);
            var meta', debug' := Renamed(meta, n), Renamed(debug, n + 1);
            && MetaAt(metas', dicts', meta') == MetaAt(metas, dicts, meta) == MetaAt(metas', dicts', meta)
            && DictAt(dicts', debug') == DictAt(dicts, debug) == DictAt(dicts', debug)
            && MetaLive(metas', dicts', meta, debug, n) && MetaLive(metas', dicts', meta', debug', n + 2)
            && MetaApart(metas', meta, debug, meta', debug') && MetaApart(metas', meta', debug', meta, debug)
  {
  }

  lemma CopiedSignature(signs: Signs, texts: Texts, p: Ptr, n: nat)
    requires SignatureLive(signs, texts, p, n)
    ensures var gs, q := Copied(signs, p, n), Renamed(p, n);
            && SignatureAt(gs, texts, q) == SignatureAt(signs, texts, p) == SignatureAt(gs, texts, p)
            && HeaderMap(gs, q) == HeaderMap(signs, p) == HeaderMap(gs, p)
            && SignatureLive(gs, texts, p, n) && SignatureLive(gs, texts, q, n + 1)
  {
  }

  /** The references of the original's cached map lead where they led. */
  lemma CopiedHeld(metas: Metas, dicts: Dicts, meta: Ptr, debug: Ptr, hd: Ptr, hc: Ptr, n: nat)
    requires MetaLive(metas, dicts, meta, debug, n) && HeldLive(metas, dicts, meta, debug, hd, hc, n)
    ensures var metas' := CopiedMetas(metas, meta, n);
            var dicts' := Copied(Copied(dicts, Custom(metas, meta), n), debug, n + 1);
            && HeldAt(dicts', hd, debug) == HeldAt(dicts, hd, debug)
            && HeldAt(dicts', hc, Custom(metas', meta)) == HeldAt(dicts, hc, Custom(metas, meta))
            && HeldLive(metas', dicts', meta, debug, hd, hc, n)
            && HeldApart(metas', hd, hc, Renamed(meta, n), Renamed(debug, n + 1))
  {
  }

  /** New links are shown as they were given, and leave what another collection shows. */
  lemma NewShown(links: Links, ls: LinkMap, n: nat)
    ensures Shown(NewLinks(links, ls, n), NewItems(ls, n)) == ls
    ensures ItemsLive(NewLinks(links, ls, n), NewItems(ls, n), n + 1)
  {
    forall rel | rel in ls && ls[rel].Some?
      ensures LinkAddr(n, rel) in NewLinks(links, ls, n) && NewLinks(links, ls, n)[LinkAddr(n, rel)] == ls[rel].value
    {
      assert LinkAddr(n, rel) in NewAddrs(ls, n);
    }
    assert Shown(NewLinks(links, ls, n), NewItems(ls, n)) == ls;
  }

  lemma OldLinks(links: Links, ls: LinkMap, n: nat)
    ensures var all := NewLinks(links, ls, n);
            forall a :: a in links && a.batch < n ==> a in all && all[a] == links[a]
  {
  }

  lemma ShownAgree(links: Links, links': Links, items: Items, n: nat)
    requires ItemsLive(links, items, n)
    requires forall a :: a in links && a.batch < n ==> a in links' && links'[a] == links[a]
    ensures Shown(links', items) == Shown(links, items)
    ensures ItemsLive(links', items, n) && ItemsLive(links', items, n + 1)
  {
  }

  lemma NewItemsApart(links: Links, ls: LinkMap, n: nat, items: Items)
    requires ItemsLive(links, items, n)
    ensures ItemsApart(items, NewItems(ls, n)) && ItemsApart(NewItems(ls, n), items)
  {
  }

  lemma NewSpares(links: Links, ls: LinkMap, n: nat, items: Items)
    requires ItemsLive(links, items, n)
    ensures Shown(NewLinks(links, ls, n), items) == Shown(links, items)
    ensures ItemsLive(NewLinks(links, ls, n), items, n) && ItemsLive(NewLinks(links, ls, n), items, n + 1)
    ensures ItemsApart(items, NewItems(ls, n)) && ItemsApart(NewItems(ls, n), items)
  {
    OldLinks(links, ls, n);
    ShownAgree(links, NewLinks(links, ls, n), items, n);
    NewItemsApart(links, ls, n, items);
  }

  lemma CopiedCollection(collections: Collections, links: Links, p: Ptr, n: nat)
    requires LinksLive(collections, links, p, n)
    ensures var cs, q := CopiedCollections(collections, links, p, n), Renamed(p, n);
            && ItemsAt(cs, p) == ItemsAt(collections, p)
            && ItemsAt(cs, q) == NewItems(Kept(collections, links, p), n)
            && (At(cs, p).Some? <==> p.Some?) && (At(cs, q).Some? <==> p.Some?)
            && Live(cs, p, n) && Live(cs, q, n + 1)
  {
    if p.None? {
      assert Kept(collections, links, p) == map[];
      assert NewItems(map[], n) == map[];
    }
  }

  lemma CopiedLinksView(collections: Collections, links: Links, p: Ptr, n: nat)
    requires LinksLive(collections, links, p, n)
    ensures var cs, q := CopiedCollections(collections, links, p, n), Renamed(p, n);
            var ls := NewLinks(links, Kept(collections, links, p), n);
            && LinksAt(cs, ls, p) == LinksAt(collections, links, p)
            && LinksAt(cs, ls, q) == (if p.None? then None else Some(Kept(collections, links, p)))
            && LinksLive(cs, ls, p, n) && LinksLive(cs, ls, q, n + 1) && LinksApart(cs, p, q) && LinksApart(cs, q, p)
  {
    CopiedCollection(collections, links, p, n);
    NewShown(links, Kept(collections, links, p), n);
    NewSpares(links, Kept(collections, links, p), n, ItemsAt(collections, p));
  }

  lemma CloneLeaves(h: Heap, w: Struct)
    requires LeavesLive(h, w) && Live(h.signatures, w.signature, h.next)
    ensures var (h', c) := (AfterClone(h, w), Clone(h, w));
            && At(h'.headers, c.header) == At(h.headers, w.header) == At(h'.headers, w.header)
            && At(h'.pages, c.pagination) == At(h.pages, w.pagination) == At(h'.pages, w.pagination)
            && At(h'.issues, c.issue) == At(h.issues, w.issue) == At(h'.issues, w.issue)
            && At(h'.cursors, c.cursor) == At(h.cursors, w.cursor) == At(h'.cursors, w.cursor)
            && At(h'.reasons, c.reason) == At(h.reasons, w.reason) == At(h'.reasons, w.reason)
            && LeavesLive(h', c) && LeavesLive(h', w) && LeavesApart(h', c, w) && LeavesApart(h', w, c)
  {
    var n := h.next;
    CopiedHeader(h.headers, h.package, w.header, n);
    CopiedAt(h.pages, w.pagination, n);
    CopiedAt(h.issues, w.issue, n);
    CopiedAt(h.cursors, w.cursor, n);
    CopiedAt(h.reasons, w.reason, n);
    CopiedAt(h.signatures, w.signature, n);
  }

  lemma CloneCached(h: Heap, w: Struct)
    requires Valid(h, w)
    ensures CachedAt(AfterClone(h, w), w) == CachedAt(h, w) && CachedAt(AfterClone(h, w), Clone(h, w)) == None
  {
    CopiedHeld(h.metas, h.dicts, w.meta, w.debug, w.heldDebug, w.heldCustom, h.next);
    CopiedSignature(h.signatures, h.texts, w.signature, h.next);
  }

  lemma CloneMaps(h: Heap, w: Struct)
    requires Valid(h, w)
    ensures var (h', c) := (AfterClone(h, w), Clone(h, w));
            && HeldLive(h'.metas, h'.dicts, c.meta, c.debug, c.heldDebug, c.heldCustom, h'.next)
            && HeldLive(h'.metas, h'.dicts, w.meta, w.debug, w.heldDebug, w.heldCustom, h'.next)
            && HeldApart(h'.metas, c.heldDebug, c.heldCustom, w.meta, w.debug)
            && HeldApart(h'.metas, w.heldDebug, w.heldCustom, c.meta, c.debug)
  {
    CopiedHeld(h.metas, h.dicts, w.meta, w.debug, w.heldDebug, w.heldCustom, h.next);
  }

  /**
   * A clone stands for the same state without its nil links and with an empty cache, the original for what it stood
   * for, and the two share nothing but the header map of the signature.
   */
  lemma CloneCopies(h: Heap, w: Struct)
    requires Valid(h, w)
    ensures var (h', c) := (AfterClone(h, w), Clone(h, w));
            && Snap(h', c) == Uncached(Cloned(View(h, w))) && Snap(h', w) == Snap(h, w)
            && Valid(h', c) && Valid(h', w) && Apart(h', c, w) && Apart(h', w, c)
            && HeaderMap(h'.signatures, c.signature) == HeaderMap(h.signatures, w.signature)
            && HeaderMap(h'.signatures, w.signature) == HeaderMap(h.signatures, w.signature)
  {
    CloneLeaves(h, w);
    CopiedMeta(h.metas, h.dicts, w.meta, w.debug, h.next);
    CloneCached(h, w);
    CloneMaps(h, w);
    CopiedSignature(h.signatures, h.texts, w.signature, h.next);
    CopiedLinksView(h.collections, h.links, w.links, h.next);
  }

  /** Field by field: everything but the links is the same, the fields that are never printed included. */
  lemma CloneKeepsFields(h: Heap, w: Struct)
    requires Valid(h, w)
    ensures var (a, b) := (View(h, w), View(AfterClone(h, w), Clone(h, w)));
            && b.statusCode == a.statusCode && b.total == a.total && b.message == a.message && b.data == a.data
            && b.path == a.path && b.errors == a.errors && b.skipBody == a.skipBody && b.debug == a.debug
            && b.header == a.header && b.meta == a.meta && b.pagination == a.pagination && b.cursor == a.cursor
            && b.issue == a.issue && b.signature == a.signature && b.reason == a.reason
            && (b.links.Some? <==> a.links.Some?)
  {
    CloneCopies(h, w);
  }

  /** Each relation with a link is in the clone, with an equal link, and there is no other. */
  lemma CloneKeepsLinks(h: Heap, w: Struct, rel: Key)
    requires Valid(h, w)
    ensures var (a, b) := (View(h, w).links, View(AfterClone(h, w), Clone(h, w)).links);
            a.Some? ==>
              && b.Some? && (rel in b.value <==> rel in a.value && a.value[rel].Some?)
              && (rel in b.value ==> b.value[rel] == a.value[rel])
  {
    CloneCopies(h, w);
  }

  // ---- Writes ----

  /** A write to a field that points to a struct without maps. */
  datatype LeafAct<T> =
    | Fresh(o: Option<T>)  // the pointer is replaced: by nil, or by one to a struct of its own
    | InPlace(v: T)        // the struct, if there is one, gets these contents
    | Filled(v: T)         // the same, and a nil pointer gets a new struct

  datatype MetaAct =
    | SetMeta(o: Option<Meta>)
    | ChangeMeta(e: MetaEdit)  // the struct is changed where it is, or made; a custom field is put into the map

  datatype DebugAct =
    | SetDebug(d: Dict)
    | PutDebug(k: Key, x: Value)
    | PruneDebug               // delete the nil entries

  datatype SignAct =
    | SetSignature(o: Option<Signature>)
    | SignHeader(k: Key, t: string)  // w.Signature().WithHeader

  datatype LinksAct =
    | SetLinks(o: Option<LinkMap>)
    | PutLink(rel: Key, l: Link)   // WithLink, with a link struct of its own
    | EditLink(rel: Key, l: Link)  // w.Link(rel).With...
    | DropLink(rel: Key)           // w.Links().Remove

  /** One write to a wrapper struct or to something it points to. */
  datatype Write =
    | ToPlain(s: State)                               // the fields that are no pointers
    | Rebuild                                         // the cache gets what build makes, under the current key
    | DropCache
    | UseHeader(g: nat, hd: Header)                   // w.header = a package-level header
    | ToHeader(header: LeafAct<Header>) | ToPages(pages: LeafAct<PageState>) | ToCursor(cursor: LeafAct<Cursor>)
    | ToIssue(issue: LeafAct<Issue>) | ToReason(reason: LeafAct<Reason>)
    | ToMeta(meta: MetaAct) | ToDebug(debug: DebugAct) | ToSignature(sign: SignAct) | ToLinks(links: LinksAct)

  // ---- What a write does to the state a struct stands for ----

  function LeafStep<T>(o: Option<T>, a: LeafAct<T>): Option<T> {
    match a
    case Fresh(v) => v
    case InPlace(v) => if o.Some? then Some(v) else None
    case Filled(v) => Some(v)
  }

  function MetaStep(o: Option<Meta>, a: MetaAct): Option<Meta> {
    match a
    case SetMeta(v) => v
    case ChangeMeta(e) => Some(EditMeta(o, e))
  }

  function DebugStep(d: Dict, a: DebugAct): Dict {
    match a
    case SetDebug(v) => v
    case PutDebug(k, x) => d[k := x]
    case PruneDebug => Meaningful(d)
  }

  /** signature.WithHeader: a blank key or text is ignored. */
  function SignedHeader(g: Option<Signature>, k: Key, t: string): Option<Signature> {
    if g.Some? && !BlankKey(k) && !IsEmpty(t) then Some(g.value.(headers := g.value.headers[k := t])) else g
  }

  function SignStep(o: Option<Signature>, a: SignAct): Option<Signature> {
    match a
    case SetSignature(v) => v
    case SignHeader(k, t) => SignedHeader(o, k, t)
  }

  function Relinked(ls: Option<LinkMap>, rel: Key, l: Link): Option<LinkMap> {
    if ls.Some? && rel in ls.value && ls.value[rel].Some? then Some(ls.value[rel := Some(l)]) else ls
  }

  function Unlinked(ls: Option<LinkMap>, rel: Key): Option<LinkMap> {
    if ls.Some? then Some(ls.value - {rel}) else None
  }

  function LinksStep(o: Option<LinkMap>, a: LinksAct): Option<LinkMap> {
    match a
    case SetLinks(v) => v
    case PutLink(rel, l) => Some(LinkItems(o)[rel := Some(l)])
    case EditLink(rel, l) => Relinked(o, rel, l)
    case DropLink(rel) => Unlinked(o, rel)
  }

  function PlainStep(s: State, p: State): State {
    s.(statusCode := p.statusCode, total := p.total, message := p.message, data := p.data, path := p.path,
       errors := p.errors, skipBody := p.skipBody)
  }

  function StateStep(s: State, op: Write): State {
    match op
    case ToPlain(p) => PlainStep(s, p)
    case Rebuild => s
    case DropCache => s
    case UseHeader(_, hd) => s.(header := Some(hd))
    case ToHeader(a) => s.(header := LeafStep(s.header, a))
    case ToPages(a) => s.(pagination := LeafStep(s.pagination, a))
    case ToCursor(a) => s.(cursor := LeafStep(s.cursor, a))
    case ToIssue(a) => s.(issue := LeafStep(s.issue, a))
    case ToReason(a) => s.(reason := LeafStep(s.reason, a))
    case ToMeta(a) => s.(meta := MetaStep(s.meta, a))
    case ToDebug(a) => s.(debug := DebugStep(s.debug, a))
    case ToSignature(a) => s.(signature := SignStep(s.signature, a))
    case ToLinks(a) => s.(links := LinksStep(s.links, a))
  }

  predicate CustomGone(d: Dict, a: MetaAct) {
    a.SetMeta? || a.e.MetaCustomFields? || (a.e.MetaCustomKV? && |d| == 0)
  }

  predicate DebugGone(d: Dict, a: DebugAct) {
    a.SetDebug? || (a.PutDebug? && |d| == 0)
  }

  /** The maps that a write replaces: an entry goes into the map that is there, unless that one is nil or empty. */
  function WriteGivesUp(s: State, op: Write): GivenUp {
    match op
    case ToMeta(a) => NOTHING.(custom := CustomGone(CustomOf(s.meta), a))
    case ToDebug(a) => NOTHING.(debug := DebugGone(s.debug, a))
    case ToSignature(a) => NOTHING.(texts := a.SetSignature?)
    case _ => NOTHING
  }

  function ValueStep(rt: Runtime, x: Snapshot, op: Write): Snapshot {
    match op
    case Rebuild => Snapshot(x.st, Some(Taken(rt, x.st)), CacheKey(rt, x.st))
    case DropCache => Uncached(x.st)
    case _ => x.(st := StateStep(x.st, op), cached := Leave(x.cached, x.st, WriteGivesUp(x.st, op)))
  }

  // ---- What a write does to the heap; n is the address it may allocate ----

  function Target(p: Ptr, n: nat): Ptr {
    if p.Some? then p else Some(n)
  }

  /** The struct at p is overwritten; a nil pointer gets a new one at n. */
  function Stored<T>(m: map<nat, T>, p: Ptr, n: nat, v: T): map<nat, T> {
    m[(if p.Some? then p.value else n) := v]
  }

  /** The struct at p is overwritten, if there is one. */
  function Overwritten<T>(m: map<nat, T>, p: Ptr, v: T): map<nat, T> {
    if At(m, p).Some? then m[p.value := v] else m
  }

  function Added<T>(m: map<nat, T>, n: nat, o: Option<T>): map<nat, T> {
    if o.Some? then m[n := o.value] else m
  }

  /** A pointer to what was added at n. */
  function Address<T>(o: Option<T>, n: nat): Ptr {
    if o.Some? then Some(n) else None
  }

  function LeavesAfter<T>(m: map<nat, T>, p: Ptr, a: LeafAct<T>, n: nat): map<nat, T> {
    match a
    case Fresh(o) => Added(m, n, o)
    case InPlace(v) => Overwritten(m, p, v)
    case Filled(v) => Stored(m, p, n, v)
  }

  function LeafMoved<T>(p: Ptr, a: LeafAct<T>, n: nat): Ptr {
    match a
    case Fresh(o) => Address(o, n)
    case InPlace(_) => p
    case Filled(_) => Target(p, n)
  }

  /** A map that is nil or empty is replaced by a new one before it is written. */
  function WriteTarget(dicts: Dicts, p: Ptr, n: nat): Ptr {
    if |DictAt(dicts, p)| > 0 then p else Some(n)
  }

  /** The custom-field pointer after a change of meta. */
  function CustomAfter(metas: Metas, dicts: Dicts, p: Ptr, e: MetaEdit, n: nat): Ptr {
    match e
    case MetaCustomFields(_) => Some(n)
    case MetaCustomKV(_, _) => WriteTarget(dicts, Custom(metas, p), n)
    case _ => Custom(metas, p)
  }

  function CustomDicts(metas: Metas, dicts: Dicts, p: Ptr, e: MetaEdit, n: nat): Dicts {
    match e
    case MetaCustomFields(d) => dicts[n := d]
    case MetaCustomKV(k, x) =>
      Stored(dicts, WriteTarget(dicts, Custom(metas, p), n), n, DictAt(dicts, Custom(metas, p))[k := x])
    case _ => dicts
  }

  function MetasAfter(metas: Metas, dicts: Dicts, p: Ptr, a: MetaAct, n: nat): Metas {
    match a
    case SetMeta(o) => if o.Some? then metas[n := MetaBox(o.value, Some(n))] else metas
    case ChangeMeta(e) =>
      Stored(metas, p, n, MetaBox(EditMeta(MetaAt(metas, dicts, p), e), CustomAfter(metas, dicts, p, e, n)))
  }

  function MetaDicts(metas: Metas, dicts: Dicts, p: Ptr, a: MetaAct, n: nat): Dicts {
    match a
    case SetMeta(o) => if o.Some? then dicts[n := o.value.customFields] else dicts
    case ChangeMeta(e) => CustomDicts(metas, dicts, p, e, n)
  }

  function MetaMoved(p: Ptr, a: MetaAct, n: nat): Ptr {
    match a
    case SetMeta(o) => Address(o, n)
    case ChangeMeta(_) => Target(p, n)
  }

  function DebugAfter(dicts: Dicts, p: Ptr, a: DebugAct, n: nat): Dicts {
    match a
    case SetDebug(d) => dicts[n := d]
    case PutDebug(k, x) => Stored(dicts, WriteTarget(dicts, p, n), n, DictAt(dicts, p)[k := x])
    case PruneDebug => Overwritten(dicts, p, Meaningful(DictAt(dicts, p)))
  }

  function DebugMoved(dicts: Dicts, p: Ptr, a: DebugAct, n: nat): Ptr {
    match a
    case SetDebug(_) => Some(n)
    case PutDebug(_, _) => WriteTarget(dicts, p, n)
    case PruneDebug => p
  }

  predicate Writes(signs: Signs, p: Ptr, k: Key, t: string) {
    At(signs, p).Some? && !BlankKey(k) && !IsEmpty(t)
  }

  /** A new signature without headers has no header map yet. */
  function NewHeaderMap(g: Signature, n: nat): Ptr {
    if |g.headers| > 0 then Some(n) else None
  }

  function SignsAfter(signs: Signs, p: Ptr, a: SignAct, n: nat): Signs {
    match a
    case SetSignature(o) => if o.Some? then signs[n := SignBox(o.value, NewHeaderMap(o.value, n))] else signs
    case SignHeader(k, t) =>
      if Writes(signs, p, k, t)
      then Stored(signs, p, n, At(signs, p).value.(headers := Target(HeaderMap(signs, p), n)))
      else signs
  }

  function TextsAfter(signs: Signs, texts: Texts, p: Ptr, a: SignAct, n: nat): Texts {
    match a
    case SetSignature(o) => if o.Some? then texts[n := o.value.headers] else texts
    case SignHeader(k, t) =>
      if Writes(signs, p, k, t)
      then Stored(texts, HeaderMap(signs, p), n, TextsAt(texts, HeaderMap(signs, p))[k := t])
      else texts
  }

  function SignMoved(p: Ptr, a: SignAct, n: nat): Ptr {
    match a
    case SetSignature(o) => Address(o, n)
    case SignHeader(_, _) => p
  }

  /** Links() replaces a collection that is nil or empty. */
  function CollectionTarget(collections: Collections, p: Ptr, n: nat): Ptr {
    if |ItemsAt(collections, p)| > 0 then p else Some(n)
  }

  function PutCollections(collections: Collections, p: Ptr, rel: Key, n: nat): Collections {
    Stored(collections, CollectionTarget(collections, p, n), n, ItemsAt(collections, p)[rel := Some(LinkAddr(n, rel))])
  }

  function DropCollections(collections: Collections, p: Ptr, rel: Key, n: nat): Collections {
    if At(collections, p).Some? then Stored(collections, p, n, ItemsAt(collections, p) - {rel}) else collections
  }

  function EditLinks(links: Links, items: Items, rel: Key, l: Link): Links {
    if rel in items && items[rel].Some? then links[items[rel].value := l] else links
  }

  function CollectionsAfter(collections: Collections, p: Ptr, a: LinksAct, n: nat): Collections {
    match a
    case SetLinks(o) => if o.Some? then collections[n := NewItems(o.value, n)] else collections
    case PutLink(rel, _) => PutCollections(collections, p, rel, n)
    case EditLink(_, _) => collections
    case DropLink(rel) => DropCollections(collections, p, rel, n)
  }

  function LinksAfter(collections: Collections, links: Links, p: Ptr, a: LinksAct, n: nat): Links {
    match a
    case SetLinks(o) => if o.Some? then NewLinks(links, o.value, n) else links
    case PutLink(rel, l) => links[LinkAddr(n, rel) := l]
    case EditLink(rel, l) => EditLinks(links, ItemsAt(collections, p), rel, l)
    case DropLink(_) => links
  }

  function LinksMoved(collections: Collections, p: Ptr, a: LinksAct, n: nat): Ptr {
    match a
    case SetLinks(o) => Address(o, n)
    case PutLink(_, _) => CollectionTarget(collections, p, n)
    case _ => p
  }

  /** The heap after a write through w. */
  function After(h: Heap, w: Struct, op: Write): Heap {
    var n := h.next;
    var h := h.(next := n + 1);
    match op
    case ToPlain(_) => h
    case Rebuild => h
    case DropCache => h
    case UseHeader(_, _) => h
    case ToHeader(a) => h.(headers := LeavesAfter(h.headers, w.header, a, n))
    case ToPages(a) => h.(pages := LeavesAfter(h.pages, w.pagination, a, n))
    case ToCursor(a) => h.(cursors := LeavesAfter(h.cursors, w.cursor, a, n))
    case ToIssue(a) => h.(issues := LeavesAfter(h.issues, w.issue, a, n))
    case ToReason(a) => h.(reasons := LeavesAfter(h.reasons, w.reason, a, n))
    case ToMeta(a) =>
      h.(metas := MetasAfter(h.metas, h.dicts, w.meta, a, n), dicts := MetaDicts(h.metas, h.dicts, w.meta, a, n))
    case ToDebug(a) => h.(dicts := DebugAfter(h.dicts, w.debug, a, n))
    case ToSignature(a) =>
      h.(signatures := SignsAfter(h.signatures, w.signature, a, n),
         texts := TextsAfter(h.signatures, h.texts, w.signature, a, n))
    case ToLinks(a) =>
      h.(collections := CollectionsAfter(h.collections, w.links, a, n),
         links := LinksAfter(h.collections, h.links, w.links, a, n))
  }

  function PointerIf(b: bool, p: Ptr): Ptr {
    if b then p else None
  }

  /** build stores the maps themselves. */
  function Rebuilt(rt: Runtime, h: Heap, w: Struct): Struct {
    var s := View(h, w);
    w.(cached := Some(Build(rt, s)), hash := CacheKey(rt, s), heldDebug := PointerIf(|s.debug| > 0, w.debug),
       heldCustom := PointerIf(|CustomOf(s.meta)| > 0, Custom(h.metas, w.meta)),
       heldTexts := PointerIf(|TextsOf(s.signature)| > 0, HeaderMap(h.signatures, w.signature)))
  }

  /** The struct after a write through it. */
  function Moved(rt: Runtime, h: Heap, w: Struct, op: Write): Struct {
    var n := h.next;
    match op
    case ToPlain(s) => w.(plain := s)
    case Rebuild => Rebuilt(rt, h, w)
    case DropCache => w.(cached := None, hash := NoHash)
    case UseHeader(g, _) => w.(header := Some(g))
    case ToHeader(a) => w.(header := LeafMoved(w.header, a, n))
    case ToPages(a) => w.(pagination := LeafMoved(w.pagination, a, n))
    case ToCursor(a) => w.(cursor := LeafMoved(w.cursor, a, n))
    case ToIssue(a) => w.(issue := LeafMoved(w.issue, a, n))
    case ToReason(a) => w.(reason := LeafMoved(w.reason, a, n))
    case ToMeta(a) => w.(meta := MetaMoved(w.meta, a, n))
    case ToDebug(a) => w.(debug := DebugMoved(h.dicts, w.debug, a, n))
    case ToSignature(a) => w.(signature := SignMoved(w.signature, a, n))
    case ToLinks(a) => w.(links := LinksMoved(h.collections, w.links, a, n))
  }

  // ---- Store by store: the written field, and the field of another struct ----

  lemma LeafWritten<T>(m: map<nat, T>, p: Ptr, a: LeafAct<T>, n: nat)
    requires Live(m, p, n)
    ensures var m', p' := LeavesAfter(m, p, a, n), LeafMoved(p, a, n);
            At(m', p') == LeafStep(At(m, p), a) && Live(m', p', n + 1)
  {
  }

  lemma LeafSpared<T>(m: map<nat, T>, p: Ptr, a: LeafAct<T>, n: nat, q: Ptr)
    requires Live(m, p, n) && Live(m, q, n) && Differ(q, p)
    ensures var m', p' := LeavesAfter(m, p, a, n), LeafMoved(p, a, n);
            At(m', q) == At(m, q) && Live(m', q, n + 1) && Differ(q, p')
  {
  }

  /** The header is not a package-level one. */
  predicate Private(package: Headers, p: Ptr) {
    p.Some? ==> p.value !in package
  }

  lemma HeaderWritten(headers: Headers, package: Headers, p: Ptr, a: LeafAct<Header>, n: nat)
    requires HeaderLive(headers, package, p, n) && (a.Fresh? || Private(package, p))
    ensures var hs, p' := LeavesAfter(headers, p, a, n), LeafMoved(p, a, n);
            At(hs, p') == LeafStep(At(headers, p), a) && HeaderLive(hs, package, p', n + 1)
  {
  }

  lemma HeaderSpared(headers: Headers, package: Headers, p: Ptr, a: LeafAct<Header>, n: nat, q: Ptr)
    requires HeaderLive(headers, package, p, n) && HeaderLive(headers, package, q, n)
    requires HeaderApart(package, q, p) && (a.Fresh? || Private(package, p))
    ensures var hs, p' := LeavesAfter(headers, p, a, n), LeafMoved(p, a, n);
            At(hs, q) == At(headers, q) && HeaderLive(hs, package, q, n + 1) && HeaderApart(package, q, p')
  {
  }

  lemma MetaWritten(metas: Metas, dicts: Dicts, meta: Ptr, debug: Ptr, a: MetaAct, n: nat)
    requires MetaLive(metas, dicts, meta, debug, n)
    ensures var ms, ds := MetasAfter(metas, dicts, meta, a, n), MetaDicts(metas, dicts, meta, a, n);
            && MetaAt(ms, ds, MetaMoved(meta, a, n)) == MetaStep(MetaAt(metas, dicts, meta), a)
            && DictAt(ds, debug) == DictAt(dicts, debug) && MetaLive(ms, ds, MetaMoved(meta, a, n), debug, n + 1)
  {
    if a.ChangeMeta? {
      assert Custom(MetasAfter(metas, dicts, meta, a, n), Target(meta, n)) == CustomAfter(metas, dicts, meta, a.e, n);
    }
  }

  lemma MetaSpared(metas: Metas, dicts: Dicts, meta: Ptr, debug: Ptr, a: MetaAct, n: nat, meta': Ptr, debug': Ptr)
    requires MetaLive(metas, dicts, meta, debug, n) && MetaLive(metas, dicts, meta', debug', n)
    requires MetaApart(metas, meta', debug', meta, debug)
    ensures var ms, ds := MetasAfter(metas, dicts, meta, a, n), MetaDicts(metas, dicts, meta, a, n);
            && MetaAt(ms, ds, meta') == MetaAt(metas, dicts, meta') && DictAt(ds, debug') == DictAt(dicts, debug')
            && MetaLive(ms, ds, meta', debug', n + 1) && MetaApart(ms, meta', debug', MetaMoved(meta, a, n), debug)
  {
    if a.ChangeMeta? {
      assert Custom(MetasAfter(metas, dicts, meta, a, n), Target(meta, n)) == CustomAfter(metas, dicts, meta, a.e, n);
    }
    assert Custom(MetasAfter(metas, dicts, meta, a, n), meta') == Custom(metas, meta');
  }

  lemma DebugWritten(metas: Metas, dicts: Dicts, meta: Ptr, debug: Ptr, a: DebugAct, n: nat)
    requires MetaLive(metas, dicts, meta, debug, n)
    ensures var ds, p := DebugAfter(dicts, debug, a, n), DebugMoved(dicts, debug, a, n);
            && DictAt(ds, p) == DebugStep(DictAt(dicts, debug), a)
            && MetaAt(metas, ds, meta) == MetaAt(metas, dicts, meta) && MetaLive(metas, ds, meta, p, n + 1)
  {
    if a.PruneDebug? && debug.None? {
      assert Meaningful(map[]) == map[];
    }
  }

  lemma DebugSpared(metas: Metas, dicts: Dicts, meta: Ptr, debug: Ptr, a: DebugAct, n: nat, meta': Ptr, debug': Ptr)
    requires MetaLive(metas, dicts, meta, debug, n) && MetaLive(metas, dicts, meta', debug', n)
    requires MetaApart(metas, meta', debug', meta, debug)
    ensures var ds, p := DebugAfter(dicts, debug, a, n), DebugMoved(dicts, debug, a, n);
            && MetaAt(metas, ds, meta') == MetaAt(metas, dicts, meta') && DictAt(ds, debug') == DictAt(dicts, debug')
            && MetaLive(metas, ds, meta', debug', n + 1) && MetaApart(metas, meta', debug', meta, p)
  {
  }

  lemma CustomHeldWritten(metas: Metas, dicts: Dicts, meta: Ptr, debug: Ptr, hd: Ptr, hc: Ptr, a: MetaAct, n: nat)
    requires MetaLive(metas, dicts, meta, debug, n) && HeldLive(metas, dicts, meta, debug, hd, hc, n)
    ensures var ms, ds := MetasAfter(metas, dicts, meta, a, n), MetaDicts(metas, dicts, meta, a, n);
            var d, q := DictAt(dicts, Custom(metas, meta)), MetaMoved(meta, a, n);
            && HeldAt(ds, hc, Custom(ms, q)) == LeftBehind(HeldAt(dicts, hc, Custom(metas, meta)), d, CustomGone(d, a))
            && HeldAt(ds, hd, debug) == HeldAt(dicts, hd, debug) && HeldLive(ms, ds, q, debug, hd, hc, n + 1)
  {
    if a.ChangeMeta? {
      assert Custom(MetasAfter(metas, dicts, meta, a, n), Target(meta, n)) == CustomAfter(metas, dicts, meta, a.e, n);
    }
  }

  lemma CustomHeldSpared(metas: Metas, dicts: Dicts, meta: Ptr, debug: Ptr, a: MetaAct, n: nat, meta': Ptr,
                         debug': Ptr, hd': Ptr, hc': Ptr)
    requires MetaLive(metas, dicts, meta, debug, n) && MetaLive(metas, dicts, meta', debug', n)
    requires HeldLive(metas, dicts, meta', debug', hd', hc', n) && HeldApart(metas, hd', hc', meta, debug)
    requires Differ(meta', meta)
    ensures var ms, ds := MetasAfter(metas, dicts, meta, a, n), MetaDicts(metas, dicts, meta, a, n);
            && HeldAt(ds, hd', debug') == HeldAt(dicts, hd', debug')
            && HeldAt(ds, hc', Custom(ms, meta')) == HeldAt(dicts, hc', Custom(metas, meta'))
            && HeldLive(ms, ds, meta', debug', hd', hc', n + 1)
            && HeldApart(ms, hd', hc', MetaMoved(meta, a, n), debug) && Custom(ms, meta') == Custom(metas, meta')
  {
    if a.ChangeMeta? {
      assert Custom(MetasAfter(metas, dicts, meta, a, n), Target(meta, n)) == CustomAfter(metas, dicts, meta, a.e, n);
    }
    assert Custom(MetasAfter(metas, dicts, meta, a, n), meta') == Custom(metas, meta');
  }

  lemma DebugHeldWritten(metas: Metas, dicts: Dicts, meta: Ptr, debug: Ptr, hd: Ptr, hc: Ptr, a: DebugAct, n: nat)
    requires MetaLive(metas, dicts, meta, debug, n) && HeldLive(metas, dicts, meta, debug, hd, hc, n)
    ensures var ds, p, d := DebugAfter(dicts, debug, a, n), DebugMoved(dicts, debug, a, n), DictAt(dicts, debug);
            && HeldAt(ds, hd, p) == LeftBehind(HeldAt(dicts, hd, debug), d, DebugGone(d, a))
            && HeldAt(ds, hc, Custom(metas, meta)) == HeldAt(dicts, hc, Custom(metas, meta))
            && HeldLive(metas, ds, meta, p, hd, hc, n + 1)
  {
  }

  lemma DebugHeldSpared(metas: Metas, dicts: Dicts, meta: Ptr, debug: Ptr, a: DebugAct, n: nat, meta': Ptr,
                        debug': Ptr, hd': Ptr, hc': Ptr)
    requires MetaLive(metas, dicts, meta, debug, n) && MetaLive(metas, dicts, meta', debug', n)
    requires HeldLive(metas, dicts, meta', debug', hd', hc', n) && HeldApart(metas, hd', hc', meta, debug)
    ensures var ds, p := DebugAfter(dicts, debug, a, n), DebugMoved(dicts, debug, a, n);
            && HeldAt(ds, hd', debug') == HeldAt(dicts, hd', debug')
            && HeldAt(ds, hc', Custom(metas, meta')) == HeldAt(dicts, hc', Custom(metas, meta'))
            && HeldLive(metas, ds, meta', debug', hd', hc', n + 1) && HeldApart(metas, hd', hc', meta, p)
  {
  }

  lemma TextsHeldWritten(signs: Signs, texts: Texts, p: Ptr, ht: Ptr, a: SignAct, n: nat)
    requires SignatureLive(signs, texts, p, n) && Live(texts, ht, n)
    ensures var gs, ts := SignsAfter(signs, p, a, n), TextsAfter(signs, texts, p, a, n);
            && HeldTextsAt(ts, ht, HeaderMap(gs, SignMoved(p, a, n))) ==
               LeftBehind(HeldTextsAt(texts, ht, HeaderMap(signs, p)), TextDict(TextsAt(texts, HeaderMap(signs, p))),
                          a.SetSignature?)
            && Live(ts, ht, n + 1)
  {
  }

  lemma TextsHeldSpared(signs: Signs, texts: Texts, p: Ptr, a: SignAct, n: nat, q: Ptr, ht: Ptr)
    requires SignatureLive(signs, texts, p, n) && SignatureLive(signs, texts, q, n) && Differ(q, p)
    requires Live(texts, ht, n) && (a.SetSignature? || Differ(ht, HeaderMap(signs, p)))
    ensures var gs, ts := SignsAfter(signs, p, a, n), TextsAfter(signs, texts, p, a, n);
            && HeldTextsAt(ts, ht, HeaderMap(gs, q)) == HeldTextsAt(texts, ht, HeaderMap(signs, q))
            && Live(ts, ht, n + 1) && Differ(ht, HeaderMap(gs, SignMoved(p, a, n)))
  {
    assert HeaderMap(SignsAfter(signs, p, a, n), q) == HeaderMap(signs, q);
  }

  lemma SignWritten(signs: Signs, texts: Texts, p: Ptr, a: SignAct, n: nat)
    requires SignatureLive(signs, texts, p, n)
    ensures var gs, ts := SignsAfter(signs, p, a, n), TextsAfter(signs, texts, p, a, n);
            && SignatureAt(gs, ts, SignMoved(p, a, n)) == SignStep(SignatureAt(signs, texts, p), a)
            && SignatureLive(gs, ts, SignMoved(p, a, n), n + 1)
  {
  }

  lemma SignSpared(signs: Signs, texts: Texts, p: Ptr, a: SignAct, n: nat, q: Ptr)
    requires SignatureLive(signs, texts, p, n) && SignatureLive(signs, texts, q, n) && Differ(q, p)
    requires a.SetSignature? || Differ(HeaderMap(signs, q), HeaderMap(signs, p))
    ensures var gs, ts := SignsAfter(signs, p, a, n), TextsAfter(signs, texts, p, a, n);
            && SignatureAt(gs, ts, q) == SignatureAt(signs, texts, q) && SignatureLive(gs, ts, q, n + 1)
            && HeaderMap(gs, q) == HeaderMap(signs, q) && Differ(HeaderMap(gs, q), HeaderMap(gs, SignMoved(p, a, n)))
            && Differ(q, SignMoved(p, a, n))
  {
  }

  lemma SignShared(signs: Signs, texts: Texts, p: Ptr, k: Key, t: string, n: nat, q: Ptr)
    requires SignatureLive(signs, texts, p, n) && SignatureLive(signs, texts, q, n) && Differ(q, p)
    requires HeaderMap(signs, q).Some? && HeaderMap(signs, q) == HeaderMap(signs, p)
    ensures var gs, ts := SignsAfter(signs, p, SignHeader(k, t), n), TextsAfter(signs, texts, p, SignHeader(k, t), n);
            SignatureAt(gs, ts, q) == SignedHeader(SignatureAt(signs, texts, q), k, t)
  {
  }

  lemma ShownKept(links: Links, items: Items, n: nat, rel: Key, l: Link)
    requires ItemsLive(links, items, n)
    ensures Shown(links[LinkAddr(n, rel) := l], items) == Shown(links, items)
    ensures ItemsLive(links[LinkAddr(n, rel) := l], items, n + 1)
  {
  }

  lemma ShownPut(links: Links, items: Items, n: nat, rel: Key, l: Link)
    requires ItemsLive(links, items, n)
    ensures var ls, its := links[LinkAddr(n, rel) := l], items[rel := Some(LinkAddr(n, rel))];
            Shown(ls, its) == Shown(links, items)[rel := Some(l)] && ItemsLive(ls, its, n + 1)
  {
    ShownKept(links, items, n, rel, l);
    var ls, its := links[LinkAddr(n, rel) := l], items[rel := Some(LinkAddr(n, rel))];
    assert Shown(ls, its) == Shown(ls, items)[rel := Some(l)];
  }

  lemma ShownDrop(links: Links, items: Items, n: nat, rel: Key)
    requires ItemsLive(links, items, n)
    ensures Shown(links, items - {rel}) == Shown(links, items) - {rel} && ItemsLive(links, items - {rel}, n + 1)
  {
  }

  lemma LinksReplaced(collections: Collections, links: Links, p: Ptr, o: Option<LinkMap>, n: nat)
    requires LinksLive(collections, links, p, n)
    ensures var a := SetLinks(o);
            var cs, ls := CollectionsAfter(collections, p, a, n), LinksAfter(collections, links, p, a, n);
            LinksAt(cs, ls, Address(o, n)) == o && LinksLive(cs, ls, Address(o, n), n + 1)
  {
    if o.Some? {
      NewShown(links, o.value, n);
      assert ItemsAt(collections[n := NewItems(o.value, n)], Some(n)) == NewItems(o.value, n);
    }
  }

  lemma NewCollection(collections: Collections, items: Items, n: nat, q: Ptr)
    requires Live(collections, q, n)
    ensures var cs := collections[n := items];
            && At(cs, q) == At(collections, q) && ItemsAt(cs, q) == ItemsAt(collections, q)
            && ItemsAt(cs, Some(n)) == items && Live(cs, q, n + 1) && Differ(q, Some(n))
  {
  }

  lemma LinksReplacedSpared(collections: Collections, links: Links, p: Ptr, o: Option<LinkMap>, n: nat, q: Ptr)
    requires LinksLive(collections, links, q, n)
    ensures var a := SetLinks(o);
            var cs, ls := CollectionsAfter(collections, p, a, n), LinksAfter(collections, links, p, a, n);
            && LinksAt(cs, ls, q) == LinksAt(collections, links, q) && LinksLive(cs, ls, q, n + 1)
            && LinksApart(cs, q, Address(o, n))
  {
    if o.Some? {
      NewSpares(links, o.value, n, ItemsAt(collections, q));
      NewCollection(collections, NewItems(o.value, n), n, q);
    }
  }

  lemma LinksEdit(collections: Collections, links: Links, p: Ptr, rel: Key, l: Link, n: nat)
    requires LinksLive(collections, links, p, n)
    ensures var ls := EditLinks(links, ItemsAt(collections, p), rel, l);
            && LinksAt(collections, ls, p) == Relinked(LinksAt(collections, links, p), rel, l)
            && LinksLive(collections, ls, p, n + 1)
  {
    var items := ItemsAt(collections, p);
    if rel in items && items[rel].Some? {
      assert Shown(links[items[rel].value := l], items) == Shown(links, items)[rel := Some(l)];
    }
  }

  lemma LinksEditSpared(collections: Collections, links: Links, p: Ptr, rel: Key, l: Link, n: nat, q: Ptr)
    requires LinksLive(collections, links, p, n) && LinksLive(collections, links, q, n) && LinksApart(collections, q, p)
    ensures var ls := EditLinks(links, ItemsAt(collections, p), rel, l);
            LinksAt(collections, ls, q) == LinksAt(collections, links, q) && LinksLive(collections, ls, q, n + 1)
  {
    var items, others := ItemsAt(collections, p), ItemsAt(collections, q);
    assert ItemsApart(others, items);
    if rel in items && items[rel].Some? {
      assert Shown(links[items[rel].value := l], others) == Shown(links, others);
    }
  }

  lemma LinksPut(collections: Collections, links: Links, p: Ptr, rel: Key, l: Link, n: nat)
    requires LinksLive(collections, links, p, n)
    ensures var cs, ls := PutCollections(collections, p, rel, n), links[LinkAddr(n, rel) := l];
            var q := CollectionTarget(collections, p, n);
            && LinksAt(cs, ls, q) == Some(LinkItems(LinksAt(collections, links, p))[rel := Some(l)])
            && LinksLive(cs, ls, q, n + 1)
  {
    var cs, q := PutCollections(collections, p, rel, n), CollectionTarget(collections, p, n);
    ShownPut(links, ItemsAt(collections, p), n, rel, l);
    assert ItemsAt(cs, q) == ItemsAt(collections, p)[rel := Some(LinkAddr(n, rel))];
    assert Shown(links, map[]) == map[];
  }

  lemma LinksPutSpared(collections: Collections, links: Links, p: Ptr, rel: Key, l: Link, n: nat, q: Ptr)
    requires LinksLive(collections, links, p, n) && LinksLive(collections, links, q, n) && LinksApart(collections, q, p)
    ensures var cs, ls := PutCollections(collections, p, rel, n), links[LinkAddr(n, rel) := l];
            && LinksAt(cs, ls, q) == LinksAt(collections, links, q) && LinksLive(cs, ls, q, n + 1)
            && LinksApart(cs, q, CollectionTarget(collections, p, n))
  {
    var cs, t := PutCollections(collections, p, rel, n), CollectionTarget(collections, p, n);
    ShownKept(links, ItemsAt(collections, q), n, rel, l);
    assert ItemsAt(cs, q) == ItemsAt(collections, q);
    assert ItemsAt(cs, t) == ItemsAt(collections, p)[rel := Some(LinkAddr(n, rel))];
  }

  lemma LinksDrop(collections: Collections, links: Links, p: Ptr, rel: Key, n: nat)
    requires LinksLive(collections, links, p, n)
    ensures var cs := DropCollections(collections, p, rel, n);
            && LinksAt(cs, links, p) == Unlinked(LinksAt(collections, links, p), rel)
            && LinksLive(cs, links, p, n + 1)
  {
    ShownDrop(links, ItemsAt(collections, p), n, rel);
    if p.Some? {
      assert ItemsAt(DropCollections(collections, p, rel, n), p) == ItemsAt(collections, p) - {rel};
    }
  }

  lemma LinksDropSpared(collections: Collections, links: Links, p: Ptr, rel: Key, n: nat, q: Ptr)
    requires LinksLive(collections, links, p, n) && LinksLive(collections, links, q, n) && LinksApart(collections, q, p)
    ensures var cs := DropCollections(collections, p, rel, n);
            && LinksAt(cs, links, q) == LinksAt(collections, links, q) && LinksLive(cs, links, q, n + 1)
            && LinksApart(cs, q, p)
  {
    var cs := DropCollections(collections, p, rel, n);
    assert ItemsAt(cs, q) == ItemsAt(collections, q);
    if p.Some? {
      assert ItemsAt(cs, p) == ItemsAt(collections, p) - {rel};
    }
  }

  lemma LinksWritten(collections: Collections, links: Links, p: Ptr, a: LinksAct, n: nat)
    requires LinksLive(collections, links, p, n)
    ensures var cs, ls := CollectionsAfter(collections, p, a, n), LinksAfter(collections, links, p, a, n);
            && LinksAt(cs, ls, LinksMoved(collections, p, a, n)) == LinksStep(LinksAt(collections, links, p), a)
            && LinksLive(cs, ls, LinksMoved(collections, p, a, n), n + 1)
  {
    match a
    case SetLinks(o) => LinksReplaced(collections, links, p, o, n);
    case PutLink(rel, l) => LinksPut(collections, links, p, rel, l, n);
    case EditLink(rel, l) => LinksEdit(collections, links, p, rel, l, n);
    case DropLink(rel) => LinksDrop(collections, links, p, rel, n);
  }

  lemma LinksSpared(collections: Collections, links: Links, p: Ptr, a: LinksAct, n: nat, q: Ptr)
    requires LinksLive(collections, links, p, n) && LinksLive(collections, links, q, n) && LinksApart(collections, q, p)
    ensures var cs, ls := CollectionsAfter(collections, p, a, n), LinksAfter(collections, links, p, a, n);
            && LinksAt(cs, ls, q) == LinksAt(collections, links, q) && LinksLive(cs, ls, q, n + 1)
            && LinksApart(cs, q, LinksMoved(collections, p, a, n))
  {
    match a
    case SetLinks(o) => LinksReplacedSpared(collections, links, p, o, n, q);
    case PutLink(rel, l) => LinksPutSpared(collections, links, p, rel, l, n, q);
    case EditLink(rel, l) => LinksEditSpared(collections, links, p, rel, l, n, q);
    case DropLink(rel) => LinksDropSpared(collections, links, p, rel, n, q);
  }

  // ---- One write: what it does to its own struct, and that it leaves another alone ----

  /** The package-level header that is used is one, and none is written. */
  predicate Sound(h: Heap, w: Struct, op: Write) {
    && (op.UseHeader? ==> op.g in h.package && h.package[op.g] == op.hd)
    && (op.ToHeader? && !op.header.Fresh? ==> Private(h.package, w.header))
  }

  /** The write goes to nothing that v shares. */
  predicate Unshared(h: Heap, v: Struct, w: Struct, op: Write) {
    op.ToSignature? && op.sign.SignHeader? ==> HeadersApart(h, v, w)
  }

  lemma CustomSeen(metas: Metas, dicts: Dicts, p: Ptr)
    ensures CustomOf(MetaAt(metas, dicts, p)) == DictAt(dicts, Custom(metas, p))
  {
  }

  lemma HeadersSeen(signs: Signs, texts: Texts, p: Ptr)
    ensures TextsOf(SignatureAt(signs, texts, p)) == TextDict(TextsAt(texts, HeaderMap(signs, p)))
  {
    assert TextDict(map[]) == map[];
  }

  lemma SnapOf(rt: Runtime, h: Heap, w: Struct, op: Write, h': Heap, w': Struct)
    requires !op.Rebuild? && !op.DropCache?
    requires View(h', w') == StateStep(View(h, w), op) && w'.hash == w.hash
    requires CachedAt(h', w') == Leave(CachedAt(h, w), View(h, w), WriteGivesUp(View(h, w), op))
    ensures Snap(h', w') == ValueStep(rt, Snap(h, w), op)
  {
  }

  lemma PlainOwn(rt: Runtime, h: Heap, w: Struct, op: Write)
    requires Valid(h, w) && (op.ToPlain? || op.DropCache? || op.UseHeader?) && Sound(h, w, op)
    ensures Snap(After(h, w, op), Moved(rt, h, w, op)) == ValueStep(rt, Snap(h, w), op)
    ensures Valid(After(h, w, op), Moved(rt, h, w, op))
  {
  }

  lemma PlainOther(rt: Runtime, h: Heap, w: Struct, op: Write, v: Struct)
    requires Valid(h, w) && Valid(h, v) && Apart(h, v, w) && Sound(h, w, op)
    requires op.ToPlain? || op.Rebuild? || op.DropCache? || op.UseHeader?
    ensures Snap(After(h, w, op), v) == Snap(h, v) && Valid(After(h, w, op), v)
    ensures Apart(After(h, w, op), v, Moved(rt, h, w, op))
  {
  }

  lemma HeldRebuilt(dicts: Dicts, p: Ptr)
    ensures HeldAt(dicts, PointerIf(|DictAt(dicts, p)| > 0, p), p) == Hold(|DictAt(dicts, p)| > 0)
  {
  }

  lemma TextsRebuilt(texts: Texts, p: Ptr, b: bool)
    requires b ==> p.Some?
    ensures HeldTextsAt(texts, PointerIf(b, p), p) == Hold(b)
  {
  }

  /** The header map of a signature that prints headers is not nil. */
  lemma TextsThere(signs: Signs, texts: Texts, p: Ptr)
    ensures |TextsOf(SignatureAt(signs, texts, p))| > 0 ==> HeaderMap(signs, p).Some?
  {
    assert TextDict(map[]) == map[];
  }

  lemma RebuiltCache(rt: Runtime, h: Heap, w: Struct)
    requires Valid(h, w)
    ensures CachedAt(h, Rebuilt(rt, h, w)) == Some(Taken(rt, View(h, w)))
  {
    HeldRebuilt(h.dicts, w.debug);
    CustomSeen(h.metas, h.dicts, w.meta);
    HeldRebuilt(h.dicts, Custom(h.metas, w.meta));
    TextsThere(h.signatures, h.texts, w.signature);
    TextsRebuilt(h.texts, HeaderMap(h.signatures, w.signature), |TextsOf(View(h, w).signature)| > 0);
  }

  lemma RebuiltRest(rt: Runtime, h: Heap, w: Struct)
    requires Valid(h, w)
    ensures View(h, Rebuilt(rt, h, w)) == View(h, w) && Valid(h, Rebuilt(rt, h, w))
  {
  }

  lemma NextOnly(h: Heap, w: Struct)
    requires Valid(h, w)
    ensures var h' := h.(next := h.next + 1);
            View(h', w) == View(h, w) && CachedAt(h', w) == CachedAt(h, w) && Valid(h', w)
  {
  }

  lemma RebuildOwn(rt: Runtime, h: Heap, w: Struct)
    requires Valid(h, w)
    ensures Snap(After(h, w, Rebuild), Moved(rt, h, w, Rebuild)) == ValueStep(rt, Snap(h, w), Rebuild)
    ensures Valid(After(h, w, Rebuild), Moved(rt, h, w, Rebuild))
  {
    RebuiltCache(rt, h, w);
    RebuiltRest(rt, h, w);
    NextOnly(h, Rebuilt(rt, h, w));
  }

  /** A write that leaves the maps and the pointers to them alone leaves the cached map alone. */
  lemma CacheSame(h: Heap, w: Struct, h': Heap, w': Struct)
    requires h'.dicts == h.dicts && h'.metas == h.metas && h'.signatures == h.signatures && h'.texts == h.texts
    requires w'.debug == w.debug && w'.meta == w.meta && w'.signature == w.signature && w'.cached == w.cached
    requires w'.heldDebug == w.heldDebug && w'.heldCustom == w.heldCustom && w'.heldTexts == w.heldTexts
    ensures CachedAt(h', w') == CachedAt(h, w) == Leave(CachedAt(h, w), View(h, w), NOTHING)
  {
  }

  lemma HeaderRest(rt: Runtime, h: Heap, w: Struct, op: Write)
    requires Valid(h, w) && op.ToHeader? && Sound(h, w, op)
    ensures var (h', w') := (After(h, w, op), Moved(rt, h, w, op));
            View(h', w') == StateStep(View(h, w), op) && Valid(h', w') && w'.hash == w.hash
  {
    HeaderWritten(h.headers, h.package, w.header, op.header, h.next);
  }

  lemma HeaderOwn(rt: Runtime, h: Heap, w: Struct, op: Write)
    requires Valid(h, w) && op.ToHeader? && Sound(h, w, op)
    ensures Snap(After(h, w, op), Moved(rt, h, w, op)) == ValueStep(rt, Snap(h, w), op)
    ensures Valid(After(h, w, op), Moved(rt, h, w, op))
  {
    HeaderRest(rt, h, w, op);
    CacheSame(h, w, After(h, w, op), Moved(rt, h, w, op));
    SnapOf(rt, h, w, op, After(h, w, op), Moved(rt, h, w, op));
  }

  lemma HeaderSeenAlike(h: Heap, w: Struct, op: Write, v: Struct)
    requires Valid(h, w) && Valid(h, v) && Apart(h, v, w) && op.ToHeader?
    requires op.header.Fresh? || Private(h.package, w.header)
    ensures Snap(After(h, w, op), v) == Snap(h, v)
  {
    HeaderSpared(h.headers, h.package, w.header, op.header, h.next, v.header);
    CacheSame(h, v, After(h, w, op), v);
  }

  lemma HeaderKeepsApart(rt: Runtime, h: Heap, w: Struct, op: Write, v: Struct)
    requires Valid(h, w) && Valid(h, v) && Apart(h, v, w) && op.ToHeader?
    requires op.header.Fresh? || Private(h.package, w.header)
    ensures Valid(After(h, w, op), v) && Apart(After(h, w, op), v, Moved(rt, h, w, op))
  {
    HeaderSpared(h.headers, h.package, w.header, op.header, h.next, v.header);
  }

  lemma HeaderOther(rt: Runtime, h: Heap, w: Struct, op: Write, v: Struct)
    requires Valid(h, w) && Valid(h, v) && Apart(h, v, w) && op.ToHeader?
    requires op.header.Fresh? || Private(h.package, w.header)
    ensures Snap(After(h, w, op), v) == Snap(h, v) && Valid(After(h, w, op), v)
    ensures Apart(After(h, w, op), v, Moved(rt, h, w, op))
  {
    HeaderSeenAlike(h, w, op, v);
    HeaderKeepsApart(rt, h, w, op, v);
  }

  lemma PagesOwn(rt: Runtime, h: Heap, w: Struct, op: Write)
    requires Valid(h, w) && op.ToPages?
    ensures Snap(After(h, w, op), Moved(rt, h, w, op)) == ValueStep(rt, Snap(h, w), op)
    ensures Valid(After(h, w, op), Moved(rt, h, w, op))
  {
    LeafWritten(h.pages, w.pagination, op.pages, h.next);
  }

  lemma PagesOther(rt: Runtime, h: Heap, w: Struct, op: Write, v: Struct)
    requires Valid(h, w) && Valid(h, v) && Apart(h, v, w) && op.ToPages?
    ensures Snap(After(h, w, op), v) == Snap(h, v) && Valid(After(h, w, op), v)
    ensures Apart(After(h, w, op), v, Moved(rt, h, w, op))
  {
    LeafSpared(h.pages, w.pagination, op.pages, h.next, v.pagination);
  }

  lemma CursorOwn(rt: Runtime, h: Heap, w: Struct, op: Write)
    requires Valid(h, w) && op.ToCursor?
    ensures Snap(After(h, w, op), Moved(rt, h, w, op)) == ValueStep(rt, Snap(h, w), op)
    ensures Valid(After(h, w, op), Moved(rt, h, w, op))
  {
    LeafWritten(h.cursors, w.cursor, op.cursor, h.next);
  }

  lemma CursorOther(rt: Runtime, h: Heap, w: Struct, op: Write, v: Struct)
    requires Valid(h, w) && Valid(h, v) && Apart(h, v, w) && op.ToCursor?
    ensures Snap(After(h, w, op), v) == Snap(h, v) && Valid(After(h, w, op), v)
    ensures Apart(After(h, w, op), v, Moved(rt, h, w, op))
  {
    LeafSpared(h.cursors, w.cursor, op.cursor, h.next, v.cursor);
  }

  lemma IssueOwn(rt: Runtime, h: Heap, w: Struct, op: Write)
    requires Valid(h, w) && op.ToIssue?
    ensures Snap(After(h, w, op), Moved(rt, h, w, op)) == ValueStep(rt, Snap(h, w), op)
    ensures Valid(After(h, w, op), Moved(rt, h, w, op))
  {
    LeafWritten(h.issues, w.issue, op.issue, h.next);
  }

  lemma IssueOther(rt: Runtime, h: Heap, w: Struct, op: Write, v: Struct)
    requires Valid(h, w) && Valid(h, v) && Apart(h, v, w) && op.ToIssue?
    ensures Snap(After(h, w, op), v) == Snap(h, v) && Valid(After(h, w, op), v)
    ensures Apart(After(h, w, op), v, Moved(rt, h, w, op))
  {
    LeafSpared(h.issues, w.issue, op.issue, h.next, v.issue);
  }

  lemma ReasonOwn(rt: Runtime, h: Heap, w: Struct, op: Write)
    requires Valid(h, w) && op.ToReason?
    ensures Snap(After(h, w, op), Moved(rt, h, w, op)) == ValueStep(rt, Snap(h, w), op)
    ensures Valid(After(h, w, op), Moved(rt, h, w, op))
  {
    LeafWritten(h.reasons, w.reason, op.reason, h.next);
  }

  lemma ReasonOther(rt: Runtime, h: Heap, w: Struct, op: Write, v: Struct)
    requires Valid(h, w) && Valid(h, v) && Apart(h, v, w) && op.ToReason?
    ensures Snap(After(h, w, op), v) == Snap(h, v) && Valid(After(h, w, op), v)
    ensures Apart(After(h, w, op), v, Moved(rt, h, w, op))
  {
    LeafSpared(h.reasons, w.reason, op.reason, h.next, v.reason);
  }

  lemma MetaCached(rt: Runtime, h: Heap, w: Struct, op: Write)
    requires Valid(h, w) && op.ToMeta?
    ensures CachedAt(After(h, w, op), Moved(rt, h, w, op)) ==
            Leave(CachedAt(h, w), View(h, w), WriteGivesUp(View(h, w), op))
  {
    CustomHeldWritten(h.metas, h.dicts, w.meta, w.debug, w.heldDebug, w.heldCustom, op.meta, h.next);
    CustomSeen(h.metas, h.dicts, w.meta);
  }

  lemma MetaRest(rt: Runtime, h: Heap, w: Struct, op: Write)
    requires Valid(h, w) && op.ToMeta?
    ensures var (h', w') := (After(h, w, op), Moved(rt, h, w, op));
            View(h', w') == StateStep(View(h, w), op) && Valid(h', w') && w'.hash == w.hash
  {
    MetaWritten(h.metas, h.dicts, w.meta, w.debug, op.meta, h.next);
    CustomHeldWritten(h.metas, h.dicts, w.meta, w.debug, w.heldDebug, w.heldCustom, op.meta, h.next);
  }

  lemma MetaOwn(rt: Runtime, h: Heap, w: Struct, op: Write)
    requires Valid(h, w) && op.ToMeta?
    ensures Snap(After(h, w, op), Moved(rt, h, w, op)) == ValueStep(rt, Snap(h, w), op)
    ensures Valid(After(h, w, op), Moved(rt, h, w, op))
  {
    MetaCached(rt, h, w, op);
    MetaRest(rt, h, w, op);
    SnapOf(rt, h, w, op, After(h, w, op), Moved(rt, h, w, op));
  }

  lemma MetaOther(rt: Runtime, h: Heap, w: Struct, op: Write, v: Struct)
    requires Valid(h, w) && Valid(h, v) && Apart(h, v, w) && op.ToMeta?
    ensures Snap(After(h, w, op), v) == Snap(h, v) && Valid(After(h, w, op), v)
    ensures Apart(After(h, w, op), v, Moved(rt, h, w, op))
  {
    MetaSpared(h.metas, h.dicts, w.meta, w.debug, op.meta, h.next, v.meta, v.debug);
    CustomHeldSpared(h.metas, h.dicts, w.meta, w.debug, op.meta, h.next, v.meta, v.debug, v.heldDebug, v.heldCustom);
  }

  lemma DebugCached(rt: Runtime, h: Heap, w: Struct, op: Write)
    requires Valid(h, w) && op.ToDebug?
    ensures CachedAt(After(h, w, op), Moved(rt, h, w, op)) ==
            Leave(CachedAt(h, w), View(h, w), WriteGivesUp(View(h, w), op))
  {
    DebugHeldWritten(h.metas, h.dicts, w.meta, w.debug, w.heldDebug, w.heldCustom, op.debug, h.next);
  }

  lemma DebugRest(rt: Runtime, h: Heap, w: Struct, op: Write)
    requires Valid(h, w) && op.ToDebug?
    ensures var (h', w') := (After(h, w, op), Moved(rt, h, w, op));
            View(h', w') == StateStep(View(h, w), op) && Valid(h', w') && w'.hash == w.hash
  {
    DebugWritten(h.metas, h.dicts, w.meta, w.debug, op.debug, h.next);
    DebugHeldWritten(h.metas, h.dicts, w.meta, w.debug, w.heldDebug, w.heldCustom, op.debug, h.next);
  }

  lemma DebugOwn(rt: Runtime, h: Heap, w: Struct, op: Write)
    requires Valid(h, w) && op.ToDebug?
    ensures Snap(After(h, w, op), Moved(rt, h, w, op)) == ValueStep(rt, Snap(h, w), op)
    ensures Valid(After(h, w, op), Moved(rt, h, w, op))
  {
    DebugCached(rt, h, w, op);
    DebugRest(rt, h, w, op);
    SnapOf(rt, h, w, op, After(h, w, op), Moved(rt, h, w, op));
  }

  lemma DebugOther(rt: Runtime, h: Heap, w: Struct, op: Write, v: Struct)
    requires Valid(h, w) && Valid(h, v) && Apart(h, v, w) && op.ToDebug?
    ensures Snap(After(h, w, op), v) == Snap(h, v) && Valid(After(h, w, op), v)
    ensures Apart(After(h, w, op), v, Moved(rt, h, w, op))
  {
    DebugSpared(h.metas, h.dicts, w.meta, w.debug, op.debug, h.next, v.meta, v.debug);
    DebugHeldSpared(h.metas, h.dicts, w.meta, w.debug, op.debug, h.next, v.meta, v.debug, v.heldDebug, v.heldCustom);
  }

  lemma SignatureCached(rt: Runtime, h: Heap, w: Struct, op: Write)
    requires Valid(h, w) && op.ToSignature?
    ensures CachedAt(After(h, w, op), Moved(rt, h, w, op)) ==
            Leave(CachedAt(h, w), View(h, w), WriteGivesUp(View(h, w), op))
  {
    TextsHeldWritten(h.signatures, h.texts, w.signature, w.heldTexts, op.sign, h.next);
    HeadersSeen(h.signatures, h.texts, w.signature);
  }

  lemma SignatureRest(rt: Runtime, h: Heap, w: Struct, op: Write)
    requires Valid(h, w) && op.ToSignature?
    ensures var (h', w') := (After(h, w, op), Moved(rt, h, w, op));
            View(h', w') == StateStep(View(h, w), op) && Valid(h', w') && w'.hash == w.hash
  {
    SignWritten(h.signatures, h.texts, w.signature, op.sign, h.next);
    TextsHeldWritten(h.signatures, h.texts, w.signature, w.heldTexts, op.sign, h.next);
  }

  lemma SignatureOwn(rt: Runtime, h: Heap, w: Struct, op: Write)
    requires Valid(h, w) && op.ToSignature?
    ensures Snap(After(h, w, op), Moved(rt, h, w, op)) == ValueStep(rt, Snap(h, w), op)
    ensures Valid(After(h, w, op), Moved(rt, h, w, op))
  {
    SignatureCached(rt, h, w, op);
    SignatureRest(rt, h, w, op);
    SnapOf(rt, h, w, op, After(h, w, op), Moved(rt, h, w, op));
  }

  lemma SignatureSeenAlike(h: Heap, w: Struct, op: Write, v: Struct)
    requires Valid(h, w) && Valid(h, v) && Apart(h, v, w) && op.ToSignature?
    requires op.sign.SetSignature? || HeadersApart(h, v, w)
    ensures Snap(After(h, w, op), v) == Snap(h, v)
  {
    SignSpared(h.signatures, h.texts, w.signature, op.sign, h.next, v.signature);
    TextsHeldSpared(h.signatures, h.texts, w.signature, op.sign, h.next, v.signature, v.heldTexts);
  }

  lemma SignatureKeepsApart(rt: Runtime, h: Heap, w: Struct, op: Write, v: Struct)
    requires Valid(h, w) && Valid(h, v) && Apart(h, v, w) && op.ToSignature?
    requires op.sign.SetSignature? || HeadersApart(h, v, w)
    ensures Valid(After(h, w, op), v) && Apart(After(h, w, op), v, Moved(rt, h, w, op))
  {
    SignSpared(h.signatures, h.texts, w.signature, op.sign, h.next, v.signature);
    TextsHeldSpared(h.signatures, h.texts, w.signature, op.sign, h.next, v.signature, v.heldTexts);
  }

  lemma SignatureOther(rt: Runtime, h: Heap, w: Struct, op: Write, v: Struct)
    requires Valid(h, w) && Valid(h, v) && Apart(h, v, w) && op.ToSignature?
    requires op.sign.SetSignature? || HeadersApart(h, v, w)
    ensures Snap(After(h, w, op), v) == Snap(h, v) && Valid(After(h, w, op), v)
    ensures Apart(After(h, w, op), v, Moved(rt, h, w, op))
  {
    SignatureSeenAlike(h, w, op, v);
    SignatureKeepsApart(rt, h, w, op, v);
  }

  lemma LinksOwn(rt: Runtime, h: Heap, w: Struct, op: Write)
    requires Valid(h, w) && op.ToLinks?
    ensures Snap(After(h, w, op), Moved(rt, h, w, op)) == ValueStep(rt, Snap(h, w), op)
    ensures Valid(After(h, w, op), Moved(rt, h, w, op))
  {
    LinksWritten(h.collections, h.links, w.links, op.links, h.next);
  }

  lemma LinksOther(rt: Runtime, h: Heap, w: Struct, op: Write, v: Struct)
    requires Valid(h, w) && Valid(h, v) && Apart(h, v, w) && op.ToLinks?
    ensures Snap(After(h, w, op), v) == Snap(h, v) && Valid(After(h, w, op), v)
    ensures Apart(After(h, w, op), v, Moved(rt, h, w, op))
  {
    LinksSpared(h.collections, h.links, w.links, op.links, h.next, v.links);
  }

  /** A write does to its struct what ValueStep says. */
  lemma StepOwn(rt: Runtime, h: Heap, w: Struct, op: Write)
    requires Valid(h, w) && Sound(h, w, op)
    ensures Snap(After(h, w, op), Moved(rt, h, w, op)) == ValueStep(rt, Snap(h, w), op)
    ensures Valid(After(h, w, op), Moved(rt, h, w, op))
  {
    match op
    case ToPlain(_) => PlainOwn(rt, h, w, op);
    case Rebuild => RebuildOwn(rt, h, w);
    case DropCache => PlainOwn(rt, h, w, op);
    case UseHeader(_, _) => PlainOwn(rt, h, w, op);
    case ToHeader(_) => HeaderOwn(rt, h, w, op);
    case ToPages(_) => PagesOwn(rt, h, w, op);
    case ToCursor(_) => CursorOwn(rt, h, w, op);
    case ToIssue(_) => IssueOwn(rt, h, w, op);
    case ToReason(_) => ReasonOwn(rt, h, w, op);
    case ToMeta(_) => MetaOwn(rt, h, w, op);
    case ToDebug(_) => DebugOwn(rt, h, w, op);
    case ToSignature(_) => SignatureOwn(rt, h, w, op);
    case ToLinks(_) => LinksOwn(rt, h, w, op);
  }

  lemma MapsStayApart(rt: Runtime, h: Heap, w: Struct, op: Write, v: Struct)
    requires SignatureLive(h.signatures, h.texts, w.signature, h.next) && HeadersApart(h, v, w)
    requires SignatureLive(h.signatures, h.texts, v.signature, h.next) && Differ(v.signature, w.signature)
    requires Live(h.texts, v.heldTexts, h.next)
    ensures HeadersApart(After(h, w, op), v, Moved(rt, h, w, op))
  {
    if op.ToSignature? {
      SignSpared(h.signatures, h.texts, w.signature, op.sign, h.next, v.signature);
      TextsHeldSpared(h.signatures, h.texts, w.signature, op.sign, h.next, v.signature, v.heldTexts);
    }
  }

  /** A struct apart stays as it is, and stays apart. */
  lemma StepOther(rt: Runtime, h: Heap, w: Struct, op: Write, v: Struct)
    requires Valid(h, w) && Valid(h, v) && Apart(h, v, w) && Sound(h, w, op) && Unshared(h, v, w, op)
    ensures Snap(After(h, w, op), v) == Snap(h, v) && Valid(After(h, w, op), v)
    ensures Apart(After(h, w, op), v, Moved(rt, h, w, op))
    ensures HeadersApart(h, v, w) ==> HeadersApart(After(h, w, op), v, Moved(rt, h, w, op))
  {
    if HeadersApart(h, v, w) { MapsStayApart(rt, h, w, op, v); }
    match op
    case ToPlain(_) => PlainOther(rt, h, w, op, v);
    case Rebuild => PlainOther(rt, h, w, op, v);
    case DropCache => PlainOther(rt, h, w, op, v);
    case UseHeader(_, _) => PlainOther(rt, h, w, op, v);
    case ToHeader(_) => HeaderOther(rt, h, w, op, v);
    case ToPages(_) => PagesOther(rt, h, w, op, v);
    case ToCursor(_) => CursorOther(rt, h, w, op, v);
    case ToIssue(_) => IssueOther(rt, h, w, op, v);
    case ToReason(_) => ReasonOther(rt, h, w, op, v);
    case ToMeta(_) => MetaOther(rt, h, w, op, v);
    case ToDebug(_) => DebugOther(rt, h, w, op, v);
    case ToSignature(_) => SignatureOther(rt, h, w, op, v);
    case ToLinks(_) => LinksOther(rt, h, w, op, v);
  }

  lemma ApartEitherWay(h: Heap, v: Struct, w: Struct)
    requires Apart(h, v, w)
    ensures Apart(h, w, v)
  {
  }

  // ---- The two exceptions are real ----

  /** A header written through one struct appears in every struct that shares the map. */
  lemma SharedHeaderWrite(h: Heap, w: Struct, op: Write, v: Struct)
    requires Valid(h, w) && Valid(h, v) && Apart(h, v, w)
    requires !Differ(HeaderMap(h.signatures, v.signature), HeaderMap(h.signatures, w.signature))
    requires op.ToSignature? && op.sign.SignHeader?
    ensures View(After(h, w, op), v) == StateStep(View(h, v), op)
  {
    SignShared(h.signatures, h.texts, w.signature, op.sign.k, op.sign.t, h.next, v.signature);
  }

  lemma HeaderAdded(g: Option<Signature>, k: Key, t: string)
    requires g.Some?
    ensures SignedHeader(g, k, t) != g <==>
            !BlankKey(k) && !IsEmpty(t) && Lookup(TextDict(g.value.headers), k) != Some(Str(t))
  {
    var m := g.value.headers;
    if k in m && m[k] == t {
      assert m[k := t] == m;
    } else {
      assert m[k := t] != m by { assert k in m[k := t] && m[k := t][k] == t; }
    }
  }

  lemma WriteSeenIff(rt: Runtime, h: Heap, w: Struct, v: Struct, k: Key, t: string)
    requires Valid(h, w) && Valid(h, v) && Apart(h, v, w)
    requires HeaderMap(h.signatures, v.signature) == HeaderMap(h.signatures, w.signature)
    ensures View(After(h, w, ToSignature(SignHeader(k, t))), v) != View(h, v) <==>
            && HeaderMap(h.signatures, v.signature).Some? && !BlankKey(k) && !IsEmpty(t)
            && Lookup(TextDict(TextsAt(h.texts, HeaderMap(h.signatures, v.signature))), k) != Some(Str(t))
  {
    var op := ToSignature(SignHeader(k, t));
    var g := View(h, v).signature;
    if HeaderMap(h.signatures, v.signature).None? {
      StepOther(rt, h, w, op, v);
    } else {
      SharedHeaderWrite(h, w, op, v);
      HeaderAdded(g, k, t);
      assert StateStep(View(h, v), op).signature == SignedHeader(g, k, t);
    }
  }

  /** A header written on the clone's signature changes the original exactly in these cases. */
  lemma HeaderWriteLeaksIff(rt: Runtime, h: Heap, w: Struct, k: Key, t: string)
    requires Valid(h, w)
    ensures View(After(AfterClone(h, w), Clone(h, w), ToSignature(SignHeader(k, t))), w) != View(h, w) <==>
            && HeaderMap(h.signatures, w.signature).Some? && !BlankKey(k) && !IsEmpty(t)
            && Lookup(TextDict(TextsAt(h.texts, HeaderMap(h.signatures, w.signature))), k) != Some(Str(t))
  {
    CloneCopies(h, w);
    WriteSeenIff(rt, AfterClone(h, w), Clone(h, w), w, k, t);
  }

  lemma HeaderStoreSeen(h: Heap, hs: Headers, n: nat, v: Struct)
    ensures View(h.(next := n, headers := hs), v) == View(h, v).(header := At(hs, v.header))
  {
  }

  /** An edit through Header() changes a struct apart exactly when both have the same package-level header. */
  lemma HeaderEditLeaksIff(h: Heap, w: Struct, v: Struct, hd: Header)
    requires Valid(h, w) && Valid(h, v) && Apart(h, v, w)
    ensures View(After(h, w, ToHeader(InPlace(hd))), v) != View(h, v) <==>
            w.header.Some? && w.header == v.header && h.package[w.header.value] != hd
  {
    HeaderStoreSeen(h, Overwritten(h.headers, w.header, hd), h.next + 1, v);
    assert View(h, v).header == At(h.headers, v.header);
  }

  // ---- What a clone prints ----

  predicate OnlyNilLinks(ls: Option<LinkMap>) {
    LinksPresent(ls) && forall rel :: rel in ls.value ==> ls.value[rel].None?
  }

  lemma LinksOnly(rt: Runtime, s: State, ls: Option<LinkMap>, k: Key)
    requires k != KLinks
    ensures Cell(rt, s.(links := ls), k) == Cell(rt, s, k)
  {
  }

  lemma ClonedLinksCell(rt: Runtime, s: State)
    ensures Cell(rt, Cloned(s), KLinks) == Cell(rt, s, KLinks) <==> !OnlyNilLinks(s.links)
  {
    if s.links.Some? {
      var items := s.links.value;
      var kept := DropNil(items);
      assert LinksRespond(kept) == LinksRespond(items);
      if rel :| rel in items && items[rel].Some? {
        assert rel in kept;
      } else {
        assert kept == map[];
      }
    }
  }

  /** A clone prints what its original prints, unless the original has links and every one of them is nil. */
  lemma CloneBuildsSameIff(rt: Runtime, s: State)
    ensures Build(rt, Cloned(s)) == Build(rt, s) <==> !OnlyNilLinks(s.links)
  {
    BuildCells(rt, s);
    BuildCells(rt, Cloned(s));
    assert Lookup(Build(rt, s), KLinks) == Cell(rt, s, KLinks);
    assert Lookup(Build(rt, Cloned(s)), KLinks) == Cell(rt, Cloned(s), KLinks);
    ClonedLinksCell(rt, s);
    forall k | k != KLinks
      ensures Cell(rt, Cloned(s), k) == Cell(rt, s, k)
    {
      LinksOnly(rt, s, Cloned(s).links, k);
    }
  }
}
