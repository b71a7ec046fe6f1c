/** The render cache against build, over all runs of the fluent calls. */
module RenderCache {
  import opened Values
  import opened Library
  import opened Parts
  import opened Bodies
  import opened ErrorChain
  import opened Envelope
  import opened Pages
  import opened Outcome

  // ---- Reading a built map ----

  /** What the reference leads to is what a fresh build would print under that key. */
  predicate Shows(h: Held, now: Dict) {
    match h
    case Absent => |now| == 0
    case Live => |now| > 0
    case Left(d) => |now| > 0 && d == now
  }

  lemma ShowsIff(h: Held, now: Dict)
    ensures HeldCell(h, now) == When(|now| > 0, Obj(now)) <==> Shows(h, now)
  {
  }

  predicate SameShape(c: Image, d: Image) {
    && (c.debug.Absent? <==> d.debug.Absent?) && (c.custom.Absent? <==> d.custom.Absent?)
    && (c.texts.Absent? <==> d.texts.Absent?)
  }

  /** build made the map in state t; its references may have been left behind since. */
  predicate FromBuild(rt: Runtime, c: Image, t: State) {
    c.frozen == Build(rt, t) && SameShape(c, Taken(rt, t))
  }

  lemma ReadCells(c: Image, s: State)
    requires c.frozen.Keys <= TOP_KEYS
    ensures forall k :: Lookup(Read(c, s), k) == ReadCell(c, s, k)
  {
  }

  /** The cells that hold a reference to a map of the wrapper. */
  const REFERRING: set<Key> := {KDebug, KMeta, KSignature}

  lemma PlainRead(c: Image, s: State, k: Key)
    requires k !in REFERRING
    ensures ReadCell(c, s, k) == Lookup(c.frozen, k)
  {
  }

  lemma ReadIff(rt: Runtime, c: Image, u: State, s: State)
    requires c.frozen.Keys <= TOP_KEYS
    ensures Read(c, u) == Build(rt, s) <==> forall k :: ReadCell(c, u, k) == Cell(rt, s, k)
  {
    ReadCells(c, u);
    BuildCells(rt, s);
    SameByLookup(Read(c, u), Build(rt, s));
    if Read(c, u) == Build(rt, s) {
      forall k
        ensures ReadCell(c, u, k) == Cell(rt, s, k)
      {
        assert Lookup(Read(c, u), k) == Lookup(Build(rt, s), k);
      }
    } else {
      var k :| Lookup(Read(c, u), k) != Lookup(Build(rt, s), k);
      assert ReadCell(c, u, k) != Cell(rt, s, k);
    }
  }

  lemma SameBesides(a: Dict, b: Dict, k: Key)
    requires a - {k} == b - {k} && Lookup(a, k) == Lookup(b, k)
    ensures a == b
  {
    forall j
      ensures Lookup(a, j) == Lookup(b, j)
    {
      if j != k {
        assert Lookup(a, j) == Lookup(a - {k}, j);
        assert Lookup(b, j) == Lookup(b - {k}, j);
      }
    }
    SameByLookup(a, b);
  }

  /** A nested map with one cell read through a reference, against the map that prints it afresh. */
  lemma PutBack(a: Dict, b: Dict, k: Key, h: Held, now: Dict)
    requires Lookup(b, k) == When(|now| > 0, Obj(now)) && (h.Absent? ==> k !in a)
    ensures Put(a, k, HeldCell(h, now)) == b <==> a - {k} == b - {k} && Shows(h, now)
  {
    var m := Put(a, k, HeldCell(h, now));
    ShowsIff(h, now);
    assert Lookup(m, k) == HeldCell(h, now);
    assert m - {k} == a - {k};
    if a - {k} == b - {k} && Shows(h, now) {
      SameBesides(m, b, k);
    }
  }

  lemma FrozenCell(rt: Runtime, c: Image, t: State, k: Key)
    requires c.frozen == Build(rt, t)
    ensures Lookup(c.frozen, k) == Cell(rt, t, k)
  {
    BuildCells(rt, t);
  }

  lemma CustomPrinted(rt: Runtime, o: Option<Meta>)
    ensures Lookup(MetaRespond(rt, o), KCustomFields) == When(|CustomOf(o)| > 0, Obj(CustomOf(o)))
  {
    assert KCustomFields in META_KEYS;
  }

  lemma TextsPrinted(g: Signature)
    ensures Lookup(SignatureRespond(g), KHeaders) == When(|TextsOf(Some(g))| > 0, Obj(TextsOf(Some(g))))
  {
    if |g.headers| == 0 {
      assert TextDict(g.headers) == map[];
    } else {
      var k :| k in g.headers;
      assert k in TextDict(g.headers);
    }
  }

  lemma DebugReads(rt: Runtime, c: Image, s: State)
    ensures ReadCell(c, s, KDebug) == Cell(rt, s, KDebug) <==> Shows(c.debug, s.debug)
  {
    ShowsIff(c.debug, s.debug);
  }

  lemma MetaReads(rt: Runtime, c: Image, t: State, s: State)
    requires FromBuild(rt, c, t)
    ensures ReadCell(c, s, KMeta) == Cell(rt, s, KMeta) <==>
            && (t.meta.Some? <==> s.meta.Some?)
            && (s.meta.Some? ==> MetaFixed(rt, t.meta) == MetaFixed(rt, s.meta) && Shows(c.custom, CustomOf(s.meta)))
  {
    FrozenCell(rt, c, t, KMeta);
    if t.meta.Some? && s.meta.Some? {
      CustomPrinted(rt, t.meta);
      CustomPrinted(rt, s.meta);
      assert FieldsAt(c.frozen, KMeta) == MetaRespond(rt, t.meta);
      PutBack(MetaRespond(rt, t.meta), MetaRespond(rt, s.meta), KCustomFields, c.custom, CustomOf(s.meta));
    }
  }

  /** What a signature prints besides its headers. */
  function SignFixed(o: Option<Signature>): Dict {
    if o.Some? then SignatureRespond(o.value) - {KHeaders} else map[]
  }

  lemma SignatureReads(rt: Runtime, c: Image, t: State, s: State)
    requires FromBuild(rt, c, t)
    ensures ReadCell(c, s, KSignature) == Cell(rt, s, KSignature) <==>
            && (t.signature.Some? <==> s.signature.Some?)
            && (s.signature.Some? ==>
                  SignFixed(t.signature) == SignFixed(s.signature) && Shows(c.texts, TextsOf(s.signature)))
  {
    FrozenCell(rt, c, t, KSignature);
    if t.signature.Some? && s.signature.Some? {
      var a, b := SignatureRespond(t.signature.value), SignatureRespond(s.signature.value);
      TextsPrinted(t.signature.value);
      TextsPrinted(s.signature.value);
      assert FieldsAt(c.frozen, KSignature) == a;
      PutBack(a, b, KHeaders, c.texts, TextsOf(s.signature));
    }
  }

  /** The references lead to what was built: a map that was left behind had not been written. */
  predicate Undisturbed(c: Image) {
    && (c.debug.Left? ==> c.debug.d == FieldsAt(c.frozen, KDebug))
    && (c.custom.Left? ==> c.custom.d == FieldsAt(FieldsAt(c.frozen, KMeta), KCustomFields))
    && (c.texts.Left? ==> c.texts.d == FieldsAt(FieldsAt(c.frozen, KSignature), KHeaders))
  }

  lemma HeldShows(h: Held, now: Dict)
    requires h.Absent? <==> |now| == 0
    requires h.Left? ==> h.d == now
    ensures Shows(h, now)
  {
  }

  lemma UndisturbedDebug(rt: Runtime, c: Image, t: State)
    requires FromBuild(rt, c, t) && Undisturbed(c)
    ensures Shows(c.debug, t.debug)
    ensures ReadCell(c, t, KDebug) == Cell(rt, t, KDebug)
  {
    FrozenCell(rt, c, t, KDebug);
    HeldShows(c.debug, t.debug);
    DebugReads(rt, c, t);
  }

  lemma UndisturbedCustom(rt: Runtime, c: Image, t: State)
    requires FromBuild(rt, c, t) && Undisturbed(c)
    ensures Shows(c.custom, CustomOf(t.meta))
    ensures ReadCell(c, t, KMeta) == Cell(rt, t, KMeta)
  {
    FrozenCell(rt, c, t, KMeta);
    CustomPrinted(rt, t.meta);
    HeldShows(c.custom, CustomOf(t.meta));
    MetaReads(rt, c, t, t);
  }

  lemma UndisturbedTexts(rt: Runtime, c: Image, t: State)
    requires FromBuild(rt, c, t) && Undisturbed(c)
    ensures Shows(c.texts, TextsOf(t.signature))
    ensures ReadCell(c, t, KSignature) == Cell(rt, t, KSignature)
  {
    FrozenCell(rt, c, t, KSignature);
    if t.signature.Some? { TextsPrinted(t.signature.value); }
    HeldShows(c.texts, TextsOf(t.signature));
    SignatureReads(rt, c, t, t);
  }

  lemma SameNow(c: Image, s: State, t: State, k: Key)
    requires s.debug == t.debug && CustomOf(s.meta) == CustomOf(t.meta) && TextsOf(s.signature) == TextsOf(t.signature)
    ensures ReadCell(c, s, k) == ReadCell(c, t, k)
  {
  }

  lemma ThreeKeys(rt: Runtime, c: Image, s: State)
    ensures (forall k :: k in REFERRING ==> ReadCell(c, s, k) == Cell(rt, s, k)) <==>
            && ReadCell(c, s, KDebug) == Cell(rt, s, KDebug) && ReadCell(c, s, KMeta) == Cell(rt, s, KMeta)
            && ReadCell(c, s, KSignature) == Cell(rt, s, KSignature)
  {
    assert KDebug in REFERRING && KMeta in REFERRING && KSignature in REFERRING;
  }

  lemma UndisturbedCells(rt: Runtime, c: Image, t: State)
    requires FromBuild(rt, c, t) && Undisturbed(c)
    ensures forall k :: k in REFERRING ==> ReadCell(c, t, k) == Cell(rt, t, k)
  {
    UndisturbedDebug(rt, c, t);
    UndisturbedCustom(rt, c, t);
    UndisturbedTexts(rt, c, t);
    ThreeKeys(rt, c, t);
  }

  lemma UndisturbedCell(rt: Runtime, c: Image, t: State, k: Key)
    requires FromBuild(rt, c, t) && Undisturbed(c)
    ensures ReadCell(c, t, k) == Cell(rt, t, k)
  {
    if k in REFERRING {
      UndisturbedCells(rt, c, t);
    } else {
      PlainRead(c, t, k);
      FrozenCell(rt, c, t, k);
    }
  }

  /** An undisturbed map reads as it was built, as long as the wrapper's own three maps are as they were. */
  lemma ReadsAsBuilt(rt: Runtime, c: Image, t: State, s: State)
    requires FromBuild(rt, c, t) && Undisturbed(c)
    requires s.debug == t.debug && CustomOf(s.meta) == CustomOf(t.meta) && TextsOf(s.signature) == TextsOf(t.signature)
    ensures Read(c, s) == Build(rt, t)
  {
    ReadIff(rt, c, s, t);
    forall k
      ensures ReadCell(c, s, k) == Cell(rt, t, k)
    {
      SameNow(c, s, t, k);
      UndisturbedCell(rt, c, t, k);
    }
  }

  // ---- What every run keeps ----

  predicate BuiltFrom(rt: Runtime, x: Snapshot, t: State) {
    x.cached.Some? && FromBuild(rt, x.cached.value, t) && x.hash == CacheKey(rt, t)
  }

  /** The cached map was built in some state with the cached key. */
  ghost predicate Faithful(rt: Runtime, x: Snapshot) {
    x.cached.Some? ==> exists t :: BuiltFrom(rt, x, t)
  }

  /** The cache is emptied, or it stays, and at most its references are left behind. */
  predicate KeptOrEmptied(y: Snapshot, z: Snapshot) {
    z.cached.None?
    || (&& y.cached.Some? && z.hash == y.hash && z.cached.value.frozen == y.cached.value.frozen
        && SameShape(z.cached.value, y.cached.value))
  }

  lemma LeaveKeeps(o: Option<Image>, s: State, g: GivenUp)
    requires o.Some?
    ensures Leave(o, s, g).Some? && Leave(o, s, g).value.frozen == o.value.frozen
    ensures SameShape(Leave(o, s, g).value, o.value)
  {
  }

  lemma CacheKeptOrReset(rt: Runtime, y: Snapshot, op: Op)
    requires !op.Respond?
    ensures KeptOrEmptied(y, Step(rt, y, op))
  {
    if y.cached.Some? { LeaveKeeps(y.cached, y.st, GivesUp(y.st, op)); }
  }

  lemma BuiltStays(rt: Runtime, y: Snapshot, z: Snapshot, t: State)
    requires BuiltFrom(rt, y, t) && KeptOrEmptied(y, z) && z.cached.Some?
    ensures BuiltFrom(rt, z, t)
  {
  }

  lemma FaithfulStays(rt: Runtime, y: Snapshot, z: Snapshot)
    requires Faithful(rt, y) && KeptOrEmptied(y, z)
    ensures Faithful(rt, z)
  {
    if z.cached.Some? {
      var t :| BuiltFrom(rt, y, t);
      BuiltStays(rt, y, z, t);
    }
  }

  lemma HitKeeps(rt: Runtime, x: Snapshot, seed: Seed)
    requires Hit(rt, x, Rendering(rt, x.st, seed))
    ensures var (y, m) := Render(rt, x, seed);
            && KeptOrEmptied(x, y) && y.cached == Leave(x.cached, x.st, AdjustGivesUp(x.st)) && y.cached.Some?
            && y.hash == x.hash && y.st == Rendering(rt, x.st, seed) && m == Read(y.cached.value, y.st)
  {
    LeaveKeeps(x.cached, x.st, AdjustGivesUp(x.st));
  }

  /** A wrapper that was just rendered in state t. */
  function JustRendered(rt: Runtime, t: State): Snapshot {
    Snapshot(t, Some(Taken(rt, t)), CacheKey(rt, t))
  }

  lemma MissBuilds(rt: Runtime, x: Snapshot, seed: Seed)
    requires !Hit(rt, x, Rendering(rt, x.st, seed))
    ensures Render(rt, x, seed) ==
            (JustRendered(rt, Rendering(rt, x.st, seed)), Build(rt, Rendering(rt, x.st, seed)))
  {
  }

  lemma FaithfulRender(rt: Runtime, x: Snapshot, seed: Seed)
    requires Faithful(rt, x)
    ensures Faithful(rt, Render(rt, x, seed).0)
  {
    var s := Rendering(rt, x.st, seed);
    if Hit(rt, x, s) {
      HitKeeps(rt, x, seed);
      FaithfulStays(rt, x, Render(rt, x, seed).0);
    } else {
      MissBuilds(rt, x, seed);
      assert BuiltFrom(rt, JustRendered(rt, s), s);
    }
  }

  // ---- Partial correctness ----

  /** The fields that the key holds as they are. */
  const EXACT: set<Key> := {KStatusCode, KPath, KMessage, KTotal, KPagination}

  function OrEmpty(o: Option<Value>): Value {
    if o.Some? then o.value else Obj(map[])
  }

  /** hashy digests the two the same. */
  predicate SameDigest(rt: Runtime, a: Value, b: Value) {
    rt.digest(a) == rt.digest(b)
  }

  /** The printed metas are the same but for custom fields, and those are read through the reference. */
  predicate MetaAgrees(a: Value, b: Value, h: Held, now: Dict) {
    && a.Obj? && b.Obj? && a.fields - {KCustomFields} == b.fields - {KCustomFields}
    && Lookup(a.fields, KCustomFields) == HeldCell(h, now)
  }

  /** The payload is printed from a body that hashy digests like the current one. */
  ghost predicate DataAgrees(rt: Runtime, v: Value, s: State) {
    exists b :: Present(b) && v == Printed(rt, b) && rt.bodyDigest(b) == rt.bodyDigest(s.data)
  }

  /**
   * The map agrees with build on what the key holds. Its debug map and custom fields are what the references lead to:
   * a live one to the present entries, one left behind to the entries it had. As built they had the present digests.
   */
  ghost predicate AgreesOnCovered(rt: Runtime, m: Dict, c: Image, s: State) {
    && m.Keys <= TOP_KEYS
    && (forall k :: k in EXACT ==> Lookup(m, k) == Cell(rt, s, k))
    && OrEmpty(Lookup(m, KHeader)) == OrEmpty(Cell(rt, s, KHeader))
    && MetaAgrees(OrEmpty(Lookup(m, KMeta)), OrEmpty(Cell(rt, s, KMeta)), c.custom, CustomOf(s.meta))
    && (c.custom.Absent? <==> |CustomOf(s.meta)| == 0)
    && Lookup(m, KDebug) == HeldCell(c.debug, s.debug)
    && SameDigest(rt, Obj(FieldsAt(c.frozen, KDebug)), Obj(s.debug))
    && (KData in m ==> DataAgrees(rt, m[KData], s))
  }

  /** What two states with the same key have in common. */
  predicate KeyAgrees(rt: Runtime, t: State, s: State) {
    && t.statusCode == s.statusCode && t.message == s.message && t.total == s.total && t.path == s.path
    && rt.bodyDigest(t.data) == rt.bodyDigest(s.data) && SameDigest(rt, Obj(t.debug), Obj(s.debug))
    && HeaderRespond(t.header) == HeaderRespond(s.header) && MetaFixed(rt, t.meta) == MetaFixed(rt, s.meta)
    && CustomDigest(rt, t.meta) == CustomDigest(rt, s.meta)
    && PagesRespond(t.pagination) == PagesRespond(s.pagination)
  }

  lemma KeyFields(rt: Runtime, t: State, s: State)
    requires CacheKey(rt, t) == CacheKey(rt, s) != NoHash
    ensures KeyAgrees(rt, t, s)
  {
    var a, b := CacheKey(rt, t), CacheKey(rt, s);
    assert a.status == b.status && a.data == b.data && a.header == b.header && a.meta == b.meta && a.debug == b.debug;
  }

  lemma PagesCell(a: Option<PageState>, b: Option<PageState>)
    requires PagesRespond(a) == PagesRespond(b)
    ensures a.Some? <==> b.Some?
  {
    assert a.Some? <==> KPage in PagesRespond(a);
    assert b.Some? <==> KPage in PagesRespond(b);
  }

  lemma ExactCell(rt: Runtime, t: State, s: State, k: Key)
    requires t.statusCode == s.statusCode && t.message == s.message && t.total == s.total && t.path == s.path
    requires PagesRespond(t.pagination) == PagesRespond(s.pagination) && (t.pagination.Some? <==> s.pagination.Some?)
    requires k in EXACT
    ensures Cell(rt, t, k) == Cell(rt, s, k)
  {
  }

  lemma HeaderPrinted(rt: Runtime, s: State)
    ensures OrEmpty(Cell(rt, s, KHeader)) == Obj(HeaderRespond(s.header))
  {
  }

  lemma HeaderCells(rt: Runtime, t: State, s: State)
    requires KeyAgrees(rt, t, s)
    ensures OrEmpty(Cell(rt, t, KHeader)) == OrEmpty(Cell(rt, s, KHeader))
  {
    HeaderPrinted(rt, t);
    HeaderPrinted(rt, s);
  }

  lemma MetaPrinted(rt: Runtime, s: State)
    ensures OrEmpty(Cell(rt, s, KMeta)) == Obj(MetaRespond(rt, s.meta))
  {
  }

  /** The meta cell of a built map, read through the reference; an absent one counts as empty. */
  lemma MetaRead(rt: Runtime, c: Image, t: State, s: State)
    requires FromBuild(rt, c, t)
    ensures OrEmpty(ReadCell(c, s, KMeta)) ==
            Obj(Put(MetaRespond(rt, t.meta), KCustomFields, HeldCell(c.custom, CustomOf(s.meta))))
  {
    FrozenCell(rt, c, t, KMeta);
  }

  lemma PutRead(m: Dict, k: Key, v: Option<Value>)
    requires v.None? ==> k !in m
    ensures Put(m, k, v) - {k} == m - {k} && Lookup(Put(m, k, v), k) == v
  {
  }

  lemma MetaCells(rt: Runtime, c: Image, t: State, s: State)
    requires FromBuild(rt, c, t) && MetaFixed(rt, t.meta) == MetaFixed(rt, s.meta)
    requires CustomDigest(rt, t.meta) == CustomDigest(rt, s.meta)
    ensures MetaAgrees(OrEmpty(ReadCell(c, s, KMeta)), OrEmpty(Cell(rt, s, KMeta)), c.custom, CustomOf(s.meta))
    ensures c.custom.Absent? <==> |CustomOf(s.meta)| == 0
  {
    MetaRead(rt, c, t, s);
    MetaPrinted(rt, s);
    CustomPrinted(rt, t.meta);
    PutRead(MetaRespond(rt, t.meta), KCustomFields, HeldCell(c.custom, CustomOf(s.meta)));
  }

  lemma DebugPrinted(rt: Runtime, s: State)
    ensures OrEmpty(Cell(rt, s, KDebug)) == Obj(s.debug)
  {
    if |s.debug| == 0 {
      assert s.debug == map[];
    }
  }

  lemma DigestCells(rt: Runtime, c: Image, t: State, s: State)
    requires FromBuild(rt, c, t) && KeyAgrees(rt, t, s)
    ensures SameDigest(rt, Obj(FieldsAt(c.frozen, KDebug)), Obj(s.debug))
  {
    DebugPrinted(rt, t);
    FrozenCell(rt, c, t, KDebug);
    assert FieldsAt(c.frozen, KDebug) == t.debug;
  }

  lemma PlainLookup(rt: Runtime, c: Image, t: State, s: State, k: Key)
    requires c.frozen == Build(rt, t) && k !in REFERRING
    ensures Lookup(Read(c, s), k) == Cell(rt, t, k)
  {
    ReadCells(c, s);
    PlainRead(c, s, k);
    FrozenCell(rt, c, t, k);
  }

  lemma AgreeingCell(rt: Runtime, t: State, s: State, k: Key)
    requires KeyAgrees(rt, t, s) && k in EXACT
    ensures Cell(rt, t, k) == Cell(rt, s, k)
  {
    PagesCell(t.pagination, s.pagination);
    ExactCell(rt, t, s, k);
  }

  lemma ExactPlain(k: Key)
    requires k in EXACT
    ensures k !in REFERRING
  {
  }

  lemma ExactReads(rt: Runtime, c: Image, t: State, s: State)
    requires c.frozen == Build(rt, t) && KeyAgrees(rt, t, s)
    ensures forall k :: k in EXACT ==> Lookup(Read(c, s), k) == Cell(rt, s, k)
  {
    forall k | k in EXACT
      ensures Lookup(Read(c, s), k) == Cell(rt, s, k)
    {
      AgreeingCell(rt, t, s, k);
      ExactPlain(k);
      PlainLookup(rt, c, t, s, k);
    }
  }

  lemma HeaderReads(rt: Runtime, c: Image, t: State, s: State)
    requires c.frozen == Build(rt, t) && KeyAgrees(rt, t, s)
    ensures OrEmpty(Lookup(Read(c, s), KHeader)) == OrEmpty(Cell(rt, s, KHeader))
  {
    PlainLookup(rt, c, t, s, KHeader);
    HeaderCells(rt, t, s);
  }

  lemma DataReads(rt: Runtime, c: Image, t: State, s: State)
    requires c.frozen == Build(rt, t) && rt.bodyDigest(t.data) == rt.bodyDigest(s.data)
    ensures KData in Read(c, s) ==> DataAgrees(rt, Read(c, s)[KData], s)
  {
    PlainLookup(rt, c, t, s, KData);
    if KData in Read(c, s) {
      assert Lookup(Read(c, s), KData) == Some(Read(c, s)[KData]);
      assert Present(t.data) && Read(c, s)[KData] == Printed(rt, t.data);
    }
  }

  lemma MetaDebugReads(rt: Runtime, c: Image, t: State, s: State)
    requires FromBuild(rt, c, t) && KeyAgrees(rt, t, s)
    ensures MetaAgrees(OrEmpty(Lookup(Read(c, s), KMeta)), OrEmpty(Cell(rt, s, KMeta)), c.custom, CustomOf(s.meta))
    ensures c.custom.Absent? <==> |CustomOf(s.meta)| == 0
    ensures Lookup(Read(c, s), KDebug) == HeldCell(c.debug, s.debug)
  {
    ReadCells(c, s);
    MetaCells(rt, c, t, s);
    assert Lookup(Read(c, s), KMeta) == ReadCell(c, s, KMeta);
    assert Lookup(Read(c, s), KDebug) == ReadCell(c, s, KDebug);
  }

  /** Under an equal key a built map reads as the key says, and as its references lead. */
  lemma SameKeyCovers(rt: Runtime, c: Image, t: State, s: State)
    requires FromBuild(rt, c, t) && CacheKey(rt, t) == CacheKey(rt, s) != NoHash
    ensures AgreesOnCovered(rt, Read(c, s), c, s)
  {
    KeyFields(rt, t, s);
    ExactReads(rt, c, t, s);
    HeaderReads(rt, c, t, s);
    MetaDebugReads(rt, c, t, s);
    DigestCells(rt, c, t, s);
    DataReads(rt, c, t, s);
  }

  // ---- What can be hashed ----

  /** A text, a number, a flag or nil. */
  predicate Flat(d: Dict) {
    forall k :: k in d ==> d[k].Str? || d[k].Num? || d[k].Bool? || d[k].Null?
  }

  predicate HoldsFunc(m: Dict, k: Key) {
    k in m && m[k].Handle?
  }

  lemma FuncUnencodable(m: Dict, k: Key)
    requires HoldsFunc(m, k)
    ensures !EncodableDict(m)
  {
    assert !Encodable(m[k]);
  }

  /** A func as payload, debug entry or custom field leaves the key empty. */
  lemma FuncRefused(rt: Runtime, s: State, k: Key)
    requires s.data.Opaque? || HoldsFunc(s.debug, k) || HoldsFunc(CustomOf(s.meta), k)
    ensures CacheKey(rt, s) == NoHash
  {
    if HoldsFunc(s.debug, k) {
      FuncUnencodable(s.debug, k);
    } else if HoldsFunc(CustomOf(s.meta), k) {
      FuncUnencodable(CustomOf(s.meta), k);
    }
  }

  /** Flat maps and plain payloads never do. */
  lemma FlatHashed(rt: Runtime, s: State)
    requires Flat(s.debug) && Flat(CustomOf(s.meta))
    requires s.data.Text? || s.data.Bytes? || s.data.Integer? || s.data.Nil?
    ensures CacheKey(rt, s) != NoHash
  {
  }

  // ---- Digests that agree on different values ----

  /** Payload, debug map and custom fields of the two states are equal if they are digested alike. */
  predicate ToldApart(rt: Runtime, t: State, s: State) {
    && (rt.bodyDigest(t.data) == rt.bodyDigest(s.data) ==> t.data == s.data)
    && (SameDigest(rt, Obj(t.debug), Obj(s.debug)) ==> t.debug == s.debug)
    && (CustomDigest(rt, t.meta) == CustomDigest(rt, s.meta) ==> CustomOf(t.meta) == CustomOf(s.meta))
  }

  lemma DebugCellOnly(rt: Runtime, t: State, d: Dict)
    ensures Build(rt, t) == Build(rt, t.(debug := d)) <==> t.debug == d
  {
    var s := t.(debug := d);
    SameCells(rt, t, s);
    if t.debug != d {
      DebugPrinted(rt, t);
      DebugPrinted(rt, s);
      assert Cell(rt, t, KDebug) != Cell(rt, s, KDebug);
    } else {
      assert s == t;
    }
  }

  lemma ReplacedDebug(rt: Runtime, x: Snapshot, d: Dict)
    ensures Step(rt, x, WithDebugging(d)) ==
            x.(st := x.st.(debug := d), cached := Leave(x.cached, x.st, NOTHING.(debug := true)))
  {
  }

  /** A hit that autoAdjust adds nothing to. */
  lemma QuietHit(rt: Runtime, x: Snapshot, seed: Seed)
    requires Rendering(rt, x.st, seed) == x.st && x.cached.Some? && x.hash == CacheKey(rt, x.st)
    requires AdjustGivesUp(x.st) == NOTHING
    ensures Render(rt, x, seed) == (x, Read(x.cached.value, x.st))
  {
  }

  lemma QuietState(rt: Runtime, s: State, seed: Seed)
    requires !IsError(s) && ResolveStatus(s) == s
    ensures Rendering(rt, s, seed) == s && AdjustGivesUp(s) == NOTHING
  {
  }

  lemma KeyWithDebug(rt: Runtime, t: State, d: Dict)
    requires Hashable(t) && EncodableDict(d) && SameDigest(rt, Obj(t.debug), Obj(d))
    ensures CacheKey(rt, t.(debug := d)) == CacheKey(rt, t)
  {
  }

  lemma TakenReads(rt: Runtime, t: State)
    ensures FromBuild(rt, Taken(rt, t), t) && Undisturbed(Taken(rt, t)) && Read(Taken(rt, t), t) == Build(rt, t)
  {
    ReadsAsBuilt(rt, Taken(rt, t), t, t);
  }

  lemma TakenCell(rt: Runtime, t: State, k: Key)
    ensures ReadCell(Taken(rt, t), t, k) == Cell(rt, t, k)
  {
    TakenReads(rt, t);
    ReadIff(rt, Taken(rt, t), t, t);
  }

  lemma LeftCell(rt: Runtime, t: State, c: Image, d: Dict, k: Key)
    requires k != KDebug && c == Taken(rt, t).(debug := c.debug)
    ensures ReadCell(c, t.(debug := d), k) == ReadCell(Taken(rt, t), t, k)
  {
  }

  lemma DebugOnly(rt: Runtime, t: State, d: Dict, k: Key)
    requires k != KDebug
    ensures Cell(rt, t.(debug := d), k) == Cell(rt, t, k)
  {
  }

  /** The map built in t reads with the entries w after the debug map that holds them is given up for d. */
  lemma LeftReads(rt: Runtime, t: State, w: Dict, d: Dict)
    requires |t.debug| == 0 <==> |w| == 0
    ensures var c := Leave(Some(Taken(rt, t)), t.(debug := w), NOTHING.(debug := true)).value;
            Read(c, t.(debug := d)) == Build(rt, t.(debug := w))
  {
    var c := Leave(Some(Taken(rt, t)), t.(debug := w), NOTHING.(debug := true)).value;
    var u := t.(debug := w);
    ReadIff(rt, c, t.(debug := d), u);
    forall k
      ensures ReadCell(c, t.(debug := d), k) == Cell(rt, u, k)
    {
      if k == KDebug {
        ShowsIff(c.debug, w);
      } else {
        TakenCell(rt, t, k);
        LeftCell(rt, t, c, d, k);
        DebugOnly(rt, t, w, k);
      }
    }
  }

  /** The rendered map holds the debug entries w by now, when the debug map is replaced by d. */
  lemma DebugReplacedUnseen(rt: Runtime, t: State, w: Dict, d: Dict, seed: Seed)
    requires Hashable(t) && EncodableDict(d) && !IsError(t) && ResolveStatus(t) == t
    requires SameDigest(rt, Obj(t.debug), Obj(d)) && (|t.debug| == 0 <==> |w| == 0)
    ensures var x := JustRendered(rt, t).(st := t.(debug := w));
            var (y, m) := Render(rt, Step(rt, x, WithDebugging(d)), seed);
            y.st == t.(debug := d) && m == Build(rt, t.(debug := w))
  {
    var x := JustRendered(rt, t).(st := t.(debug := w));
    var s := t.(debug := d);
    ReplacedDebug(rt, x, d);
    QuietState(rt, s, seed);
    KeyWithDebug(rt, t, d);
    QuietHit(rt, Step(rt, x, WithDebugging(d)), seed);
    LeftReads(rt, t, w, d);
  }

  /**
   * The digests do not tell everything apart, and then the cache is stale: after a render, another debug map that is
   * digested like the old one is invisible. The returned map is the fresh one only if the maps are equal.
   */
  lemma AlikeDebugGoesUnseen(rt: Runtime, t: State, d: Dict, seed: Seed)
    requires Hashable(t) && EncodableDict(d) && !IsError(t) && ResolveStatus(t) == t
    requires SameDigest(rt, Obj(t.debug), Obj(d))
    ensures var (y, m) := Render(rt, Step(rt, JustRendered(rt, t), WithDebugging(d)), seed);
            && y.st.debug == d && m == Build(rt, t)
            && (m == Build(rt, y.st) <==> t.debug == d)
  {
    DebugReplacedUnseen(rt, t, t.debug, d, seed);
    DebugCellOnly(rt, t, d);
    assert t.(debug := t.debug) == t;
  }

  predicate NilLikeZero(rt: Runtime, d: Dict, k: Key) {
    SameDigest(rt, Obj(d[k := Null]), Obj(d[k := Int(0)]))
  }

  /** hashy unwraps a nil entry to the int 0. */
  ghost predicate NilIsZero(rt: Runtime) {
    forall d: Dict, k: Key :: NilLikeZero(rt, d, k)
  }

  /**
   * The case in point: WithDebugging with a nil entry, a render, WithDebugging with a new map that has 0 instead, and
   * Respond still prints null.
   */
  lemma NilDebugGoesUnseen(rt: Runtime, t: State, k: Key, seed: Seed)
    requires NilIsZero(rt) && k in t.debug && t.debug[k] == Null
    requires Hashable(t) && !IsError(t) && ResolveStatus(t) == t
    ensures var (y, m) := Render(rt, Step(rt, JustRendered(rt, t), WithDebugging(t.debug[k := Int(0)])), seed);
            Lookup(y.st.debug, k) == Some(Int(0)) && m == Build(rt, t) != Build(rt, y.st)
  {
    var d := t.debug[k := Int(0)];
    assert NilLikeZero(rt, t.debug, k) && t.debug[k := Null] == t.debug;
    assert d[k] != t.debug[k];
    AlikeDebugGoesUnseen(rt, t, d, seed);
  }

  // ---- Writes into a rendered map ----

  lemma WrittenDebug(rt: Runtime, x: Snapshot, k: Key, v: Value)
    requires |x.st.debug| > 0
    ensures Step(rt, x, WithDebuggingKV(k, v)) == x.(st := x.st.(debug := x.st.debug[k := v]))
  {
  }

  /** The map built in t reads with the entries w once they are in the debug map it refers to. */
  lemma LiveReads(rt: Runtime, t: State, w: Dict)
    requires |t.debug| > 0 && |w| > 0
    ensures Read(Taken(rt, t), t.(debug := w)) == Build(rt, t.(debug := w))
  {
    var u := t.(debug := w);
    ReadIff(rt, Taken(rt, t), u, u);
    forall k
      ensures ReadCell(Taken(rt, t), u, k) == Cell(rt, u, k)
    {
      if k != KDebug {
        TakenCell(rt, t, k);
        LeftCell(rt, t, Taken(rt, t), w, k);
        DebugOnly(rt, t, w, k);
      }
    }
  }

  /** An entry written into the debug map that a render has printed is in the cached map at once: it is always seen. */
  lemma DebugWriteSeen(rt: Runtime, t: State, k: Key, v: Value, seed: Seed)
    requires !IsError(t) && ResolveStatus(t) == t && |t.debug| > 0
    ensures var (y, m) := Render(rt, Step(rt, JustRendered(rt, t), WithDebuggingKV(k, v)), seed);
            y.st == t.(debug := t.debug[k := v]) && m == Build(rt, y.st)
  {
    var s := t.(debug := t.debug[k := v]);
    WrittenDebug(rt, JustRendered(rt, t), k, v);
    QuietState(rt, s, seed);
    if CacheKey(rt, s) == CacheKey(rt, t) {
      QuietHit(rt, JustRendered(rt, t).(st := s), seed);
      LiveReads(rt, t, t.debug[k := v]);
    } else {
      MissBuilds(rt, JustRendered(rt, t).(st := s), seed);
    }
  }

  /**
   * A rendered debug map that is written and then replaced goes on in the cached map, under the old key: without any
   * collision of digests Respond returns the entries as written, and is right exactly if the new map has the same.
   */
  lemma WrittenThenReplaced(rt: Runtime, t: State, k: Key, v: Value, d: Dict, seed: Seed)
    requires Hashable(t) && !IsError(t) && ResolveStatus(t) == t && |t.debug| > 0
    requires EncodableDict(d) && SameDigest(rt, Obj(t.debug), Obj(d))
    ensures var x := Step(rt, Step(rt, JustRendered(rt, t), WithDebuggingKV(k, v)), WithDebugging(d));
            var (y, m) := Render(rt, x, seed);
            && y.st == t.(debug := d) && m == Build(rt, t.(debug := t.debug[k := v]))
            && (m == Build(rt, y.st) <==> t.debug[k := v] == d)
  {
    var w := t.debug[k := v];
    WrittenDebug(rt, JustRendered(rt, t), k, v);
    DebugReplacedUnseen(rt, t, w, d, seed);
    DebugCellOnly(rt, t.(debug := w), d);
    assert t.(debug := w).(debug := d) == t.(debug := d);
  }

  // ---- The same for custom fields ----

  function WithCustom(t: State, d: Dict): State
    requires t.meta.Some?
  {
    t.(meta := Some(t.meta.value.(customFields := d)))
  }

  lemma CustomSteps(rt: Runtime, x: Snapshot, k: Key, v: Value, d: Dict)
    requires x.st.meta.Some? && |CustomOf(x.st.meta)| > 0
    ensures Step(rt, x, WithMetaEdit(MetaCustomKV(k, v))) == x.(st := WithCustom(x.st, CustomOf(x.st.meta)[k := v]))
    ensures Step(rt, x, WithMetaEdit(MetaCustomFields(d))) ==
            x.(st := WithCustom(x.st, d), cached := Leave(x.cached, x.st, NOTHING.(custom := true)))
  {
  }

  lemma MetaCellPlain(rt: Runtime, a: Meta, d: Dict, k: Key)
    requires k != KCustomFields
    ensures MetaCell(rt, a.(customFields := d), k) == MetaCell(rt, a, k)
  {
  }

  lemma MetaLookupPlain(rt: Runtime, a: Meta, d: Dict, k: Key)
    requires k != KCustomFields
    ensures Lookup(MetaRespond(rt, Some(a.(customFields := d))), k) == Lookup(MetaRespond(rt, Some(a)), k)
  {
    if k in META_KEYS {
      MetaLookup(rt, a.(customFields := d), k);
      MetaLookup(rt, a, k);
      MetaCellPlain(rt, a, d, k);
    }
  }

  lemma SameElsewhere(a: Dict, b: Dict, k: Key)
    requires forall j :: j != k ==> Lookup(a, j) == Lookup(b, j)
    ensures a - {k} == b - {k}
  {
    forall j
      ensures Lookup(a - {k}, j) == Lookup(b - {k}, j)
    {
      if j != k { assert Lookup(a, j) == Lookup(b, j); }
    }
    SameByLookup(a - {k}, b - {k});
  }

  lemma MetaFixedSame(rt: Runtime, t: State, d: Dict)
    requires t.meta.Some?
    ensures MetaFixed(rt, WithCustom(t, d).meta) == MetaFixed(rt, t.meta)
  {
    forall k | k != KCustomFields
      ensures Lookup(MetaRespond(rt, WithCustom(t, d).meta), k) == Lookup(MetaRespond(rt, t.meta), k)
    {
      MetaLookupPlain(rt, t.meta.value, d, k);
    }
    SameElsewhere(MetaRespond(rt, WithCustom(t, d).meta), MetaRespond(rt, t.meta), KCustomFields);
  }

  lemma CustomOnly(rt: Runtime, t: State, d: Dict, k: Key)
    requires t.meta.Some? && k != KMeta
    ensures Cell(rt, WithCustom(t, d), k) == Cell(rt, t, k)
  {
  }

  lemma OtherReads(rt: Runtime, t: State, c: Image, s: State, k: Key)
    requires c == Taken(rt, t).(custom := c.custom) && k != KMeta
    requires s.debug == t.debug && TextsOf(s.signature) == TextsOf(t.signature)
    ensures ReadCell(c, s, k) == ReadCell(Taken(rt, t), t, k)
  {
  }

  /** A dict with one cell set to what another one has there, the rest of which it shares, is that other one. */
  lemma PutOver(a: Dict, b: Dict, k: Key, v: Option<Value>)
    requires a - {k} == b - {k} && Lookup(b, k) == v && (v.None? ==> k !in a)
    ensures Put(a, k, v) == b
  {
    PutRead(a, k, v);
    SameBesides(Put(a, k, v), b, k);
  }

  lemma CustomCell(rt: Runtime, t: State, w: Dict, c: Image, s: State)
    requires t.meta.Some? && c.frozen == Build(rt, t) && (c.custom.Absent? <==> |CustomOf(t.meta)| == 0)
    requires HeldCell(c.custom, CustomOf(s.meta)) == When(|w| > 0, Obj(w))
    ensures ReadCell(c, s, KMeta) == Cell(rt, WithCustom(t, w), KMeta)
  {
    var u := WithCustom(t, w);
    var v := HeldCell(c.custom, CustomOf(s.meta));
    FrozenCell(rt, c, t, KMeta);
    assert FieldsAt(c.frozen, KMeta) == MetaRespond(rt, t.meta);
    assert Put(MetaRespond(rt, t.meta), KCustomFields, v) == MetaRespond(rt, u.meta) by {
      CustomPrinted(rt, t.meta);
      CustomPrinted(rt, u.meta);
      MetaFixedSame(rt, t, w);
      PutOver(MetaRespond(rt, t.meta), MetaRespond(rt, u.meta), KCustomFields, v);
    }
  }

  /** A map built in t whose custom fields read as w, in whatever state the wrapper is. */
  lemma CustomReads(rt: Runtime, t: State, w: Dict, c: Image, s: State)
    requires t.meta.Some? && c == Taken(rt, t).(custom := c.custom) && (c.custom.Absent? <==> |CustomOf(t.meta)| == 0)
    requires HeldCell(c.custom, CustomOf(s.meta)) == When(|w| > 0, Obj(w))
    requires s.debug == t.debug && TextsOf(s.signature) == TextsOf(t.signature)
    ensures Read(c, s) == Build(rt, WithCustom(t, w))
  {
    var u := WithCustom(t, w);
    ReadIff(rt, c, s, u);
    forall k
      ensures ReadCell(c, s, k) == Cell(rt, u, k)
    {
      if k == KMeta {
        CustomCell(rt, t, w, c, s);
      } else {
        TakenCell(rt, t, k);
        OtherReads(rt, t, c, s, k);
        CustomOnly(rt, t, w, k);
      }
    }
  }

  lemma CustomCellOnly(rt: Runtime, t: State, w: Dict, d: Dict)
    requires t.meta.Some? && |w| > 0 && |d| > 0
    ensures Build(rt, WithCustom(t, w)) == Build(rt, WithCustom(t, d)) <==> w == d
  {
    SameCells(rt, WithCustom(t, w), WithCustom(t, d));
    CustomPrinted(rt, WithCustom(t, w).meta);
    CustomPrinted(rt, WithCustom(t, d).meta);
    assert Cell(rt, WithCustom(t, w), KMeta) == Some(Obj(MetaRespond(rt, WithCustom(t, w).meta)));
    assert Cell(rt, WithCustom(t, d), KMeta) == Some(Obj(MetaRespond(rt, WithCustom(t, d).meta)));
  }

  lemma KeyWithCustom(rt: Runtime, t: State, d: Dict)
    requires Hashable(t) && t.meta.Some? && EncodableDict(d) && |d| > 0 && |CustomOf(t.meta)| > 0
    requires SameDigest(rt, Obj(CustomOf(t.meta)), Obj(d))
    ensures CacheKey(rt, WithCustom(t, d)) == CacheKey(rt, t)
  {
    MetaFixedSame(rt, t, d);
  }

  /** A custom field written into a rendered map is always seen. */
  lemma CustomWriteSeen(rt: Runtime, t: State, k: Key, v: Value, seed: Seed)
    requires !IsError(t) && ResolveStatus(t) == t && |CustomOf(t.meta)| > 0
    ensures var (y, m) := Render(rt, Step(rt, JustRendered(rt, t), WithMetaEdit(MetaCustomKV(k, v))), seed);
            y.st == WithCustom(t, CustomOf(t.meta)[k := v]) && m == Build(rt, y.st)
  {
    var w := CustomOf(t.meta)[k := v];
    var s := WithCustom(t, w);
    CustomSteps(rt, JustRendered(rt, t), k, v, w);
    QuietState(rt, s, seed);
    if CacheKey(rt, s) == CacheKey(rt, t) {
      QuietHit(rt, JustRendered(rt, t).(st := s), seed);
      CustomReads(rt, t, w, Taken(rt, t), s);
    } else {
      MissBuilds(rt, JustRendered(rt, t).(st := s), seed);
    }
  }

  /** Written and then replaced, under the digest of the rendered ones, custom fields go on in the cached map. */
  lemma CustomWrittenThenReplaced(rt: Runtime, t: State, k: Key, v: Value, d: Dict, seed: Seed)
    requires Hashable(t) && !IsError(t) && ResolveStatus(t) == t && |CustomOf(t.meta)| > 0
    requires EncodableDict(d) && |d| > 0 && SameDigest(rt, Obj(CustomOf(t.meta)), Obj(d))
    ensures var x := Step(rt, JustRendered(rt, t), WithMetaEdit(MetaCustomKV(k, v)));
            var (y, m) := Render(rt, Step(rt, x, WithMetaEdit(MetaCustomFields(d))), seed);
            && y.st == WithCustom(t, d) && m == Build(rt, WithCustom(t, CustomOf(t.meta)[k := v]))
            && (m == Build(rt, y.st) <==> CustomOf(t.meta)[k := v] == d)
  {
    var w := CustomOf(t.meta)[k := v];
    var x := JustRendered(rt, t).(st := WithCustom(t, w));
    var z := Step(rt, x, WithMetaEdit(MetaCustomFields(d)));
    CustomSteps(rt, JustRendered(rt, t), k, v, d);
    CustomSteps(rt, x, k, v, d);
    QuietState(rt, WithCustom(t, d), seed);
    KeyWithCustom(rt, t, d);
    QuietHit(rt, z, seed);
    CustomReads(rt, t, w, z.cached.value, z.st);
    CustomCellOnly(rt, t, w, d);
  }

  // ---- The fields outside the key ----

  /** State that build or autoAdjust reads and the key does not cover. */
  datatype Uncovered = Uncovered(cursor: Option<Cursor>, issue: Option<Issue>, links: Option<LinkMap>,
                                 signature: Option<Signature>, reason: Option<Reason>, skipBody: bool,
                                 unanswered: bool, hasHeader: bool, hasMeta: bool)

  /** An error that has no issue yet: autoAdjust will make one. */
  predicate Unanswered(s: State) {
    s.errors.Some? && s.issue.None?
  }

  function UncoveredOf(s: State): Uncovered {
    Uncovered(s.cursor, s.issue, s.links, s.signature, s.reason, s.skipBody, Unanswered(s), s.header.Some?,
              s.meta.Some?)
  }

  /** Everything that build reads is the same, or prints the same. */
  predicate SameInputs(rt: Runtime, t: State, s: State) {
    && t.statusCode == s.statusCode && t.message == s.message && t.total == s.total && t.path == s.path
    && t.data == s.data && t.debug == s.debug && t.skipBody == s.skipBody
    && HeaderRespond(t.header) == HeaderRespond(s.header) && (t.header.Some? <==> s.header.Some?)
    && MetaRespond(rt, t.meta) == MetaRespond(rt, s.meta) && (t.meta.Some? <==> s.meta.Some?)
    && PagesRespond(t.pagination) == PagesRespond(s.pagination) && (t.pagination.Some? <==> s.pagination.Some?)
    && t.cursor == s.cursor && t.issue == s.issue && t.links == s.links && t.signature == s.signature
    && t.reason == s.reason
  }

  lemma CellDetermined(rt: Runtime, t: State, s: State, k: Key)
    requires SameInputs(rt, t, s)
    ensures Cell(rt, t, k) == Cell(rt, s, k)
  {
  }

  lemma MetaDetermined(rt: Runtime, a: Option<Meta>, b: Option<Meta>)
    requires MetaFixed(rt, a) == MetaFixed(rt, b) && CustomOf(a) == CustomOf(b)
    ensures MetaRespond(rt, a) == MetaRespond(rt, b)
  {
    CustomPrinted(rt, a);
    CustomPrinted(rt, b);
    SameBesides(MetaRespond(rt, a), MetaRespond(rt, b), KCustomFields);
  }

  /** Key and uncovered state together determine the printed map, where digests tell values apart. */
  lemma BuildDetermined(rt: Runtime, t: State, s: State)
    requires CacheKey(rt, t) == CacheKey(rt, s) != NoHash && UncoveredOf(t) == UncoveredOf(s) && ToldApart(rt, t, s)
    ensures Build(rt, t) == Build(rt, s)
  {
    KeyFields(rt, t, s);
    PagesCell(t.pagination, s.pagination);
    MetaDetermined(rt, t.meta, s.meta);
    forall k
      ensures Cell(rt, t, k) == Cell(rt, s, k)
    {
      CellDetermined(rt, t, s, k);
    }
    SameCells(rt, t, s);
  }

  // ---- When a hit is right ----

  /** The cells that are printed by value and can be stale under an equal key. */
  const COPIED: set<Key> := {KCursor, KIssue, KLinks, KReason, KData, KHeader}

  /** The three cells with a reference show what a fresh build prints. */
  predicate ReferencesRight(c: Image, t: State, s: State) {
    && Shows(c.debug, s.debug)
    && (t.meta.Some? <==> s.meta.Some?) && Shows(c.custom, CustomOf(s.meta))
    && (t.signature.Some? <==> s.signature.Some?) && SignFixed(t.signature) == SignFixed(s.signature)
    && Shows(c.texts, TextsOf(s.signature))
  }

  lemma NoMetaShows(rt: Runtime, c: Image, t: State, s: State)
    requires FromBuild(rt, c, t)
    ensures t.meta.None? && s.meta.None? ==> Shows(c.custom, CustomOf(s.meta))
    ensures t.signature.None? && s.signature.None? ==> Shows(c.texts, TextsOf(s.signature))
  {
  }

  lemma ReferencesIff(rt: Runtime, c: Image, t: State, s: State)
    requires FromBuild(rt, c, t) && MetaFixed(rt, t.meta) == MetaFixed(rt, s.meta)
    ensures ReferencesRight(c, t, s) <==>
            forall k :: k in REFERRING ==> ReadCell(c, s, k) == Cell(rt, s, k)
  {
    DebugReads(rt, c, s);
    MetaReads(rt, c, t, s);
    SignatureReads(rt, c, t, s);
    NoMetaShows(rt, c, t, s);
    ThreeKeys(rt, c, s);
  }

  /** A cell outside COPIED and without a reference is the same under an equal key. */
  lemma SettledCell(rt: Runtime, c: Image, t: State, s: State, k: Key)
    requires FromBuild(rt, c, t) && KeyAgrees(rt, t, s)
    requires k !in COPIED && k !in REFERRING
    ensures ReadCell(c, s, k) == Cell(rt, s, k)
  {
    FrozenCell(rt, c, t, k);
    PagesCell(t.pagination, s.pagination);
    if k in EXACT {
      ExactCell(rt, t, s, k);
    } else {
      NoCell(rt, t, k);
      NoCell(rt, s, k);
    }
  }

  lemma CopiedCell(rt: Runtime, c: Image, t: State, s: State, k: Key)
    requires c.frozen == Build(rt, t) && k in COPIED
    ensures ReadCell(c, s, k) == Cell(rt, t, k)
  {
    PlainRead(c, s, k);
    FrozenCell(rt, c, t, k);
  }

  lemma CopiedCells(rt: Runtime, c: Image, t: State, s: State)
    requires c.frozen == Build(rt, t)
    ensures forall k :: k in COPIED ==> ReadCell(c, s, k) == Cell(rt, t, k)
  {
    forall k | k in COPIED
      ensures ReadCell(c, s, k) == Cell(rt, t, k)
    {
      CopiedCell(rt, c, t, s, k);
    }
  }

  lemma SettledCells(rt: Runtime, c: Image, t: State, s: State)
    requires FromBuild(rt, c, t) && KeyAgrees(rt, t, s)
    ensures forall k :: k in COPIED || k in REFERRING || ReadCell(c, s, k) == Cell(rt, s, k)
  {
    forall k | k !in COPIED && k !in REFERRING
      ensures ReadCell(c, s, k) == Cell(rt, s, k)
    {
      SettledCell(rt, c, t, s, k);
    }
  }

  lemma CellsSplit(rt: Runtime, c: Image, t: State, s: State)
    requires forall k :: k in COPIED ==> ReadCell(c, s, k) == Cell(rt, t, k)
    requires forall k :: k in COPIED || k in REFERRING || ReadCell(c, s, k) == Cell(rt, s, k)
    ensures (forall k :: ReadCell(c, s, k) == Cell(rt, s, k)) <==>
            && (forall k :: k in COPIED ==> Cell(rt, t, k) == Cell(rt, s, k))
            && (forall k :: k in REFERRING ==> ReadCell(c, s, k) == Cell(rt, s, k))
  {
    if forall k :: ReadCell(c, s, k) == Cell(rt, s, k) {
      forall k | k in COPIED
        ensures Cell(rt, t, k) == Cell(rt, s, k)
      {
        assert ReadCell(c, s, k) == Cell(rt, s, k);
      }
    } else {
      var k :| ReadCell(c, s, k) != Cell(rt, s, k);
      assert k in COPIED || k in REFERRING;
    }
  }

  /** Under an equal key a built map reads right exactly if its copied cells have not moved and its references are. */
  lemma HitReads(rt: Runtime, c: Image, t: State, s: State)
    requires FromBuild(rt, c, t) && KeyAgrees(rt, t, s)
    ensures Read(c, s) == Build(rt, s) <==>
            (forall k :: k in COPIED ==> Cell(rt, t, k) == Cell(rt, s, k)) && ReferencesRight(c, t, s)
  {
    ReadIff(rt, c, s, s);
    ReferencesIff(rt, c, t, s);
    CopiedCells(rt, c, t, s);
    SettledCells(rt, c, t, s);
    CellsSplit(rt, c, t, s);
  }

  lemma PlainCell(rt: Runtime, c: Image, t: State, s: State, k: Key)
    requires c.frozen == Build(rt, t) && k !in REFERRING
    ensures ReadCell(c, s, k) == Cell(rt, t, k)
  {
    PlainRead(c, s, k);
    FrozenCell(rt, c, t, k);
  }

  lemma ReferringSplit(rt: Runtime, c: Image, t: State, s: State)
    requires forall k :: k !in REFERRING ==> ReadCell(c, s, k) == Cell(rt, t, k)
    ensures (forall k :: ReadCell(c, s, k) == Cell(rt, s, k)) <==>
            && (forall k :: k !in REFERRING ==> Cell(rt, t, k) == Cell(rt, s, k))
            && (forall k :: k in REFERRING ==> ReadCell(c, s, k) == Cell(rt, s, k))
  {
    if forall k :: ReadCell(c, s, k) == Cell(rt, s, k) {
      forall k | k !in REFERRING
        ensures Cell(rt, t, k) == Cell(rt, s, k)
      {
        assert ReadCell(c, s, k) == Cell(rt, s, k);
      }
    } else {
      var k :| ReadCell(c, s, k) != Cell(rt, s, k);
      assert k !in REFERRING || k in REFERRING;
    }
  }

  /** The same whatever the keys are: every cell printed by value has to be the one that was built. */
  lemma AnyHitReads(rt: Runtime, c: Image, t: State, s: State)
    requires FromBuild(rt, c, t)
    ensures Read(c, s) == Build(rt, s) <==>
            && (forall k :: k !in REFERRING ==> Cell(rt, t, k) == Cell(rt, s, k))
            && MetaFixed(rt, t.meta) == MetaFixed(rt, s.meta) && ReferencesRight(c, t, s)
  {
    ReadIff(rt, c, s, s);
    forall k | k !in REFERRING
      ensures ReadCell(c, s, k) == Cell(rt, t, k)
    {
      PlainCell(rt, c, t, s, k);
    }
    MetaReads(rt, c, t, s);
    ReferringSplit(rt, c, t, s);
    if MetaFixed(rt, t.meta) == MetaFixed(rt, s.meta) { ReferencesIff(rt, c, t, s); }
  }

  /**
   * A cache hit is exact: the returned map is the fresh one exactly when the cells that were copied have not moved and
   * the three references lead to what a fresh build prints. A live debug map that is not empty always does; one that
   * was left behind does exactly if it has the present entries.
   */
  lemma HitExact(rt: Runtime, x: Snapshot, t: State, seed: Seed)
    requires BuiltFrom(rt, x, t)
    requires CacheKey(rt, Rendering(rt, x.st, seed)) == x.hash != NoHash
    ensures var (y, m) := Render(rt, x, seed);
            && y.cached.Some?
            && (m == Build(rt, y.st) <==>
                && (forall k :: k in COPIED ==> Cell(rt, t, k) == Cell(rt, y.st, k))
                && ReferencesRight(y.cached.value, t, y.st))
  {
    var s := Rendering(rt, x.st, seed);
    HitKeeps(rt, x, seed);
    BuiltStays(rt, x, Render(rt, x, seed).0, t);
    KeyFields(rt, t, s);
    HitReads(rt, Render(rt, x, seed).0.cached.value, t, s);
  }

  // ---- Full correctness ----

  /** A failure is printed without an issue, as only a blind render leaves it. */
  predicate Outdated(s: State) {
    IsFailure(s.statusCode) && s.issue.None?
  }

  /** The references of the cached map lead to what was built. */
  predicate Intact(x: Snapshot) {
    x.cached.Some? ==> Undisturbed(x.cached.value)
  }

  predicate Current(rt: Runtime, x: Snapshot, t: State) {
    && BuiltFrom(rt, x, t) && !Pending(x.st) && !Unanswered(t)
    && (!Outdated(t) ==> UncoveredOf(t) == UncoveredOf(x.st))
  }

  /** The cached map was built in one of the past states, which had the present uncovered fields. */
  ghost predicate Coherent(rt: Runtime, x: Snapshot, past: seq<State>) {
    x.cached.Some? && x.hash != NoHash ==> exists i :: 0 <= i < |past| && Current(rt, x, past[i])
  }

  lemma RenderingAnswered(rt: Runtime, s: State, seed: Seed)
    ensures !Unanswered(Rendering(rt, s, seed))
  {
  }

  lemma RenderedNotPending(rt: Runtime, s: State, seed: Seed)
    ensures !Pending(Rendering(rt, s, seed))
  {
  }

  lemma QuietRests(rt: Runtime, s: State, seed: Seed)
    requires s.errors.None? && (!IsFailure(s.statusCode) || s.issue.Some?)
    ensures UncoveredOf(Rendering(rt, s, seed)) == UncoveredOf(s)
  {
    assert OverrideStatus(rt, FillError(rt, s, seed)) == FillError(rt, s, seed);
  }

  lemma ErrorRests(rt: Runtime, s: State, seed: Seed, h: Option<Header>)
    requires s.errors.Some? && s.issue.Some? && (h.Some? <==> s.header.Some?)
    requires HeaderRespond(h) == HeaderRespond(Rendering(rt, s, seed).header)
    ensures UncoveredOf(Rendering(rt, s, seed)) == UncoveredOf(s)
  {
    assert FillError(rt, s, seed) == s;
    assert KCode in HeaderRespond(Some(INTERNAL_SERVER_ERROR));
    assert FillIssue(OverrideStatus(rt, s), seed) == OverrideStatus(rt, s);
  }

  lemma QuietStatus(rt: Runtime, s: State, seed: Seed)
    requires s.errors.None? && IsFailure(s.statusCode)
    ensures Rendering(rt, s, seed).statusCode == s.statusCode
  {
  }

  /** Where the key is that of a map that is not outdated, autoAdjust has nothing to add. */
  lemma AnsweredRests(rt: Runtime, s: State, seed: Seed, t: State)
    requires !Outdated(t) && !Unanswered(t) && UncoveredOf(t) == UncoveredOf(s) && !Pending(s)
    requires t.statusCode == Rendering(rt, s, seed).statusCode
    requires HeaderRespond(t.header) == HeaderRespond(Rendering(rt, s, seed).header)
    ensures UncoveredOf(Rendering(rt, s, seed)) == UncoveredOf(s)
  {
    if s.errors.Some? {
      ErrorRests(rt, s, seed, t.header);
    } else {
      if IsFailure(s.statusCode) { QuietStatus(rt, s, seed); }
      QuietRests(rt, s, seed);
    }
  }

  /** A hit on a map that is not outdated: it reads as a fresh build. */
  lemma HitIsFresh(rt: Runtime, x: Snapshot, seed: Seed, t: State)
    requires Current(rt, x, t) && x.hash != NoHash && !Outdated(t) && ToldApart(rt, t, Rendering(rt, x.st, seed))
    requires CacheKey(rt, Rendering(rt, x.st, seed)) == x.hash && Intact(Render(rt, x, seed).0)
    ensures var (y, m) := Render(rt, x, seed);
            m == Build(rt, y.st) && UncoveredOf(t) == UncoveredOf(y.st)
  {
    var y := Render(rt, x, seed).0;
    HitKeeps(rt, x, seed);
    BuiltStays(rt, x, y, t);
    KeyFields(rt, t, y.st);
    AnsweredRests(rt, x.st, seed, t);
    BuildDetermined(rt, t, y.st);
    ReadsAsBuilt(rt, y.cached.value, t, y.st);
  }

  lemma IssueMissing(rt: Runtime, c: Image, t: State, s: State)
    requires FromBuild(rt, c, t) && t.issue.None? && s.issue.Some?
    ensures Read(c, s) != Build(rt, s)
  {
    FrozenCell(rt, c, t, KIssue);
    ReadIff(rt, c, s, s);
    assert ReadCell(c, s, KIssue) != Cell(rt, s, KIssue);
  }

  /** A hit on an outdated map: the fresh one has an issue. */
  lemma HitIsOutdated(rt: Runtime, x: Snapshot, seed: Seed, t: State)
    requires BuiltFrom(rt, x, t) && !Pending(x.st) && x.hash != NoHash && Outdated(t)
    requires CacheKey(rt, Rendering(rt, x.st, seed)) == x.hash
    ensures var (y, m) := Render(rt, x, seed); m != Build(rt, y.st)
  {
    var (y, m) := Render(rt, x, seed);
    HitKeeps(rt, x, seed);
    BuiltStays(rt, x, y, t);
    KeyFields(rt, t, y.st);
    RenderingAnswers(rt, x.st, seed);
    IssueMissing(rt, y.cached.value, t, y.st);
  }

  /** The cached map prints a failure without an issue. */
  predicate HoldsOutdated(x: Snapshot) {
    && x.cached.Some? && KIssue !in x.cached.value.frozen
    && (var v := Lookup(x.cached.value.frozen, KStatusCode);
        v.Some? && v.value.Num? && IsFailure(v.value.d.digits))
  }

  lemma HoldsOutdatedIff(rt: Runtime, x: Snapshot, t: State)
    requires BuiltFrom(rt, x, t)
    ensures HoldsOutdated(x) <==> Outdated(t)
  {
    FrozenCell(rt, x.cached.value, t, KStatusCode);
    FrozenCell(rt, x.cached.value, t, KIssue);
  }

  /** The key of the render is that of the cached map. */
  predicate Hits(rt: Runtime, x: Snapshot, seed: Seed) {
    Hit(rt, x, Rendering(rt, x.st, seed))
  }

  /** On a coherent snapshot Respond is right unless it hits an outdated map, and it stays coherent. */
  lemma CoherentRender(rt: Runtime, x: Snapshot, seed: Seed, past: seq<State>)
    requires Coherent(rt, x, past) && Intact(Render(rt, x, seed).0)
    requires forall i :: 0 <= i < |past| ==> ToldApart(rt, past[i], Rendering(rt, x.st, seed))
    ensures var (y, m) := Render(rt, x, seed);
            && Coherent(rt, y, past + [y.st])
            && (y.hash != NoHash ==> (m == Build(rt, y.st) <==> !(Hits(rt, x, seed) && HoldsOutdated(x))))
  {
    var (y, m) := Render(rt, x, seed);
    var all := past + [y.st];
    if Hits(rt, x, seed) {
      HitKeeps(rt, x, seed);
      if x.hash != NoHash {
        var i :| 0 <= i < |past| && Current(rt, x, past[i]);
        HoldsOutdatedIff(rt, x, past[i]);
        RenderedNotPending(rt, x.st, seed);
        BuiltStays(rt, x, y, past[i]);
        if Outdated(past[i]) {
          HitIsOutdated(rt, x, seed, past[i]);
        } else {
          HitIsFresh(rt, x, seed, past[i]);
        }
        assert Current(rt, y, all[i]);
      }
    } else {
      MissBuilds(rt, x, seed);
      RenderingAnswered(rt, x.st, seed);
      RenderedNotPending(rt, x.st, seed);
      assert Current(rt, y, all[|past|]);
    }
  }

  /** A call that does not render keeps coherence if it empties the cache or leaves the uncovered state alone. */
  lemma CoherentEdit(rt: Runtime, y: Snapshot, z: Snapshot, past: seq<State>)
    requires Coherent(rt, y, past) && (!Pending(y.st) ==> !Pending(z.st))
    requires KeptOrEmptied(y, z) && (z.cached.None? || UncoveredOf(z.st) == UncoveredOf(y.st))
    ensures Coherent(rt, z, past + [z.st])
  {
    if z.cached.Some? && z.hash != NoHash {
      var i :| 0 <= i < |past| && Current(rt, y, past[i]);
      BuiltStays(rt, y, z, past[i]);
      assert Current(rt, z, (past + [z.st])[i]);
    }
  }

  /** A failure is pending, and nothing that autoAdjust would add for it is there. */
  predicate Blind(s: State) {
    Pending(s) && s.errors.None? && s.issue.None?
  }

  /** Only a blind state is rendered without the issue of its failure. */
  lemma OutdatedIffBlind(rt: Runtime, s: State, seed: Seed)
    ensures Outdated(Rendering(rt, s, seed)) <==> Blind(s)
  {
  }

  lemma RenderingHashable(rt: Runtime, s: State, seed: Seed)
    requires Hashable(s)
    ensures Hashable(Rendering(rt, s, seed))
  {
  }

  lemma RenderingRests(rt: Runtime, s: State, seed: Seed, seed': Seed)
    requires !(Pending(s) && s.errors.None?)
    requires var t := Rendering(rt, s, seed); !(t.errors.Some? && IsSuccess(t.statusCode))
    ensures Rendering(rt, Rendering(rt, s, seed), seed') == Rendering(rt, s, seed)
  {
    AdjustEffects(rt, s, seed);
    AdjustEffects(rt, Rendering(rt, s, seed), seed');
  }

  lemma ChangedStatusMisses(rt: Runtime, t: State, seed: Seed)
    requires Hashable(t) && t.errors.Some? && IsSuccess(t.statusCode)
    ensures var (y, m) := Render(rt, JustRendered(rt, t), seed); m == Build(rt, y.st)
  {
    var s := Rendering(rt, t, seed);
    assert s.statusCode == 500;
    if CacheKey(rt, s) == CacheKey(rt, t) {
      KeyFields(rt, t, s);
    }
    MissBuilds(rt, JustRendered(rt, t), seed);
  }

  lemma PendingTaken(rt: Runtime, s: State, seed: Seed)
    requires Pending(s) && s.errors.None?
    ensures Rendering(rt, s, seed) == s.(statusCode := HeaderCode(s.header))
  {
  }

  lemma FailureAnswered(rt: Runtime, t: State, seed: Seed, e: Err, i: Issue)
    requires IsFailure(t.statusCode) && t.errors.None? && e == Underlying(seed.errId, ErrorText(rt, t))
    requires i == if t.issue.Some? then t.issue.value else NewIssue(e, seed)
    ensures Rendering(rt, t, seed) == t.(errors := Some(e), issue := Some(i))
  {
  }

  lemma KeyWithoutErrors(rt: Runtime, t: State, es: Option<Err>, i: Option<Issue>)
    ensures CacheKey(rt, t.(errors := es, issue := i)) == CacheKey(rt, t)
  {
  }

  lemma OtherCells(rt: Runtime, t: State, es: Option<Err>, i: Option<Issue>, k: Key)
    requires k != KIssue
    ensures Cell(rt, t.(errors := es, issue := i), k) == Cell(rt, t, k)
  {
  }

  lemma IssueCellOnly(rt: Runtime, t: State, es: Option<Err>, i: Issue)
    requires t.issue.Some? ==> t.issue.value == i
    ensures Build(rt, t) == Build(rt, t.(errors := es, issue := Some(i))) <==> t.issue.Some?
  {
    var s := t.(errors := es, issue := Some(i));
    BuildCells(rt, t);
    BuildCells(rt, s);
    if t.issue.Some? {
      assert s.issue == t.issue;
      forall k
        ensures Cell(rt, s, k) == Cell(rt, t, k)
      {
        if k != KIssue { OtherCells(rt, t, es, t.issue, k); }
      }
    } else {
      assert Lookup(Build(rt, t), KIssue) == None;
      assert Lookup(Build(rt, s), KIssue).Some?;
    }
  }

  /** A hit in a state whose three maps are those of the render: the map reads as it was built. */
  lemma HitAsBuilt(rt: Runtime, t: State, u: State, seed: Seed)
    requires CacheKey(rt, Rendering(rt, u, seed)) == CacheKey(rt, t) && AdjustGivesUp(u) == NOTHING
    requires var s := Rendering(rt, u, seed);
             s.debug == t.debug && CustomOf(s.meta) == CustomOf(t.meta) && TextsOf(s.signature) == TextsOf(t.signature)
    ensures Render(rt, JustRendered(rt, t).(st := u), seed) ==
            (JustRendered(rt, t).(st := Rendering(rt, u, seed)), Build(rt, t))
  {
    TakenReads(rt, t);
    ReadsAsBuilt(rt, Taken(rt, t), t, Rendering(rt, u, seed));
  }

  /** A failure rendered without an error is given one, and an issue, by the next render. */
  lemma FailureSecond(rt: Runtime, t: State, seed: Seed)
    requires Hashable(t) && IsFailure(t.statusCode) && t.errors.None?
    ensures var (y, m) := Render(rt, JustRendered(rt, t), seed);
            m == Build(rt, y.st) <==> t.issue.Some?
  {
    var e := Underlying(seed.errId, ErrorText(rt, t));
    var i := if t.issue.Some? then t.issue.value else NewIssue(e, seed);
    FailureAnswered(rt, t, seed, e, i);
    KeyWithoutErrors(rt, t, Some(e), Some(i));
    IssueCellOnly(rt, t, Some(e), i);
    HitAsBuilt(rt, t, t, seed);
  }

  lemma PendingSecond(rt: Runtime, s: State, seed: Seed, seed': Seed)
    requires Hashable(s) && Pending(s) && s.errors.None?
    ensures var t := Rendering(rt, s, seed);
            var (y, m) := Render(rt, JustRendered(rt, t), seed');
            m == Build(rt, y.st) <==> s.issue.Some?
  {
    PendingTaken(rt, s, seed);
    RenderingHashable(rt, s, seed);
    FailureSecond(rt, Rendering(rt, s, seed), seed');
  }

  /**
   * A pending failure is the one start that a disciplined run cannot mend: of two renders in a row the second is
   * right exactly when the envelope was not blind. The first render of a blind one takes the status and caches a map
   * without an issue, and the second adds the issue under the same key.
   */
  lemma SecondRenderIff(rt: Runtime, s: State, seed: Seed, seed': Seed)
    requires Hashable(s)
    ensures var first := Render(rt, Uncached(s), seed).0;
            var (y, m) := Render(rt, first, seed');
            m == Build(rt, y.st) <==> !Blind(s)
  {
    var t := Rendering(rt, s, seed);
    RenderingHashable(rt, s, seed);
    MissBuilds(rt, Uncached(s), seed);
    if Pending(s) && s.errors.None? {
      PendingSecond(rt, s, seed, seed');
    } else if t.errors.Some? && IsSuccess(t.statusCode) {
      ChangedStatusMisses(rt, t, seed');
    } else {
      RenderingRests(rt, s, seed, seed');
      HitAsBuilt(rt, t, t, seed');
    }
  }

  /** The calls that reset the cache themselves are always disciplined. */
  predicate Resetting(op: Op) {
    op.ReleasePart? || op.Reset? || op.WithLinks? || op.WithLinkObject? || op.WithReason?
  }

  /** Calls that touch covered fields only: the header and meta ones while those are present, errors beside an issue. */
  predicate CoveredCall(s: State, op: Op) {
    || op.WithTotal? || op.WithMessage? || op.WithBody? || op.WithPath? || op.WithPagination? || op.WithPageEdit?
    || op.WithDebugging? || op.WithDebuggingKV? || op.ReadStatusCode?
    || ((op.WithStatusCode? || op.WithHeader?) && s.header.Some?)
    || (op.WithMetaEdit? && s.meta.Some?)
    || ((op.WithErrors? || op.AppendErrs? || op.BindCause?) && s.issue.Some?)
  }

  lemma CoveredKeepsRest(rt: Runtime, s: State, op: Op)
    requires CoveredCall(s, op)
    ensures UncoveredOf(Edit(rt, s, op)) == UncoveredOf(s)
  {
  }

  /** The maps that a call gives up have not been written since the render whose map refers to them. */
  predicate Unwritten(x: Snapshot, g: GivenUp) {
    x.cached.Some? ==> Undisturbed(Leave(x.cached, x.st, g).value)
  }

  lemma NothingGivenUp(x: Snapshot)
    ensures Leave(x.cached, x.st, NOTHING) == x.cached && (Intact(x) <==> Unwritten(x, NOTHING))
  {
  }

  lemma CoveredCache(rt: Runtime, x: Snapshot, op: Op)
    requires CoveredCall(x.st, op)
    ensures Step(rt, x, op) == x.(st := Edit(rt, x.st, op), cached := Leave(x.cached, x.st, GivesUp(x.st, op)))
  {
  }

  /** Such a call empties the cache, or was given nil and does nothing. */
  lemma ResettingCalls(rt: Runtime, x: Snapshot, op: Op)
    requires Resetting(op)
    ensures Step(rt, x, op).cached.None? || Step(rt, x, op) == x
  {
  }

  lemma DisciplinedOps(rt: Runtime, x: Snapshot, op: Op)
    requires Resetting(op) ==> Intact(x)
    requires Resetting(op) || (CoveredCall(x.st, op) && Unwritten(x, GivesUp(x.st, op)))
    ensures var z := Step(rt, x, op);
            z.cached.None? || (UncoveredOf(z.st) == UncoveredOf(x.st) && Undisturbed(z.cached.value))
  {
    if Resetting(op) {
      ResettingCalls(rt, x, op);
    } else {
      CoveredCache(rt, x, op);
      CoveredKeepsRest(rt, x.st, op);
    }
  }

  // ---- The discipline is necessary ----

  lemma CursorRespondInjective(a: Cursor, b: Cursor)
    ensures CursorRespond(a) == CursorRespond(b) <==> a == b
  {
    if CursorRespond(a) == CursorRespond(b) {
      assert CursorRespond(a)[KNext] == CursorRespond(b)[KNext];
      assert CursorRespond(a)[KPrevious] == CursorRespond(b)[KPrevious];
      assert CursorRespond(a)[KHasNext] == CursorRespond(b)[KHasNext];
      assert CursorRespond(a)[KHasPrevious] == CursorRespond(b)[KHasPrevious];
      assert CursorRespond(a)[KLimit] == CursorRespond(b)[KLimit];
    }
  }

  lemma CursorCellOnly(rt: Runtime, t: State, c: Cursor)
    ensures Build(rt, t) == Build(rt, t.(cursor := Some(c))) <==> t.cursor == Some(c)
  {
    var s := t.(cursor := Some(c));
    BuildCells(rt, t);
    BuildCells(rt, s);
    if t.cursor == Some(c) {
      assert s == t;
    } else {
      assert Lookup(Build(rt, t), KCursor) == Cell(rt, t, KCursor);
      assert Lookup(Build(rt, s), KCursor) == Cell(rt, s, KCursor);
      if t.cursor.Some? {
        CursorRespondInjective(t.cursor.value, c);
      }
    }
  }

  lemma CursorStep(rt: Runtime, x: Snapshot, c: Cursor)
    ensures Step(rt, x, WithCursor(Some(c))) == x.(st := x.st.(cursor := Some(c)))
  {
  }

  lemma KeyWithCursor(rt: Runtime, t: State, c: Cursor)
    ensures CacheKey(rt, t.(cursor := Some(c))) == CacheKey(rt, t)
  {
  }

  lemma CursorHit(rt: Runtime, t: State, c: Cursor, seed: Seed)
    requires Hashable(t) && !IsError(t) && ResolveStatus(t) == t
    ensures var x := Step(rt, JustRendered(rt, t), WithCursor(Some(c)));
            x.st == t.(cursor := Some(c)) && Render(rt, x, seed) == (x, Build(rt, t))
  {
    var u := t.(cursor := Some(c));
    CursorStep(rt, JustRendered(rt, t), c);
    QuietState(rt, u, seed);
    KeyWithCursor(rt, t, c);
    HitAsBuilt(rt, t, u, seed);
  }

  /**
   * From every hashable state without an error: after a render, WithCursor is invisible. Respond still returns
   * the first map, which is the fresh one only when the cursor did not change.
   */
  lemma WithCursorGoesUnseen(rt: Runtime, t: State, c: Cursor, seed: Seed)
    requires Hashable(t) && !IsError(t) && ResolveStatus(t) == t
    ensures var (y, m) := Render(rt, Step(rt, JustRendered(rt, t), WithCursor(Some(c))), seed);
            && m == Build(rt, t) && y.st == t.(cursor := Some(c))
            && (m == Build(rt, y.st) <==> t.cursor == Some(c))
  {
    CursorHit(rt, t, c, seed);
    CursorCellOnly(rt, t, c);
  }

  lemma ErrorChangesKey(rt: Runtime, t: State, e: Err, seed: Seed)
    requires IsSuccess(t.statusCode)
    ensures CacheKey(rt, Rendering(rt, t.(errors := Some(e)), seed)) != CacheKey(rt, t) || CacheKey(rt, t) == NoHash
  {
    var s := Rendering(rt, t.(errors := Some(e)), seed);
    assert s.statusCode == 500;
    if CacheKey(rt, s) == CacheKey(rt, t) != NoHash {
      KeyFields(rt, t, s);
    }
  }

  lemma ErrorKeepsKey(rt: Runtime, t: State, e: Err, seed: Seed)
    requires !IsSuccess(t.statusCode) && ResolveStatus(t) == t && t.errors.None? && !IsFailure(t.statusCode)
    ensures var i := if t.issue.Some? then t.issue.value else NewIssue(e, seed);
            var s := t.(errors := Some(e), issue := Some(i));
            Rendering(rt, t.(errors := Some(e)), seed) == s && CacheKey(rt, s) == CacheKey(rt, t)
  {
  }

  lemma ErrorOnCached(rt: Runtime, t: State, e: Err, seed: Seed)
    requires Hashable(t) && ResolveStatus(t) == t && !IsError(t)
    ensures var y := Render(rt, JustRendered(rt, t).(st := t.(errors := Some(e))), seed);
            y.1 == Build(rt, y.0.st) <==> IsSuccess(t.statusCode) || t.issue.Some?
  {
    var u := t.(errors := Some(e));
    if IsSuccess(t.statusCode) {
      ErrorChangesKey(rt, t, e, seed);
      MissBuilds(rt, JustRendered(rt, t).(st := u), seed);
    } else {
      ErrorKeepsKey(rt, t, e, seed);
      HitAsBuilt(rt, t, u, seed);
      IssueCellOnly(rt, t, Some(e), if t.issue.Some? then t.issue.value else NewIssue(e, seed));
    }
  }

  /**
   * After a render an error setter is seen only on a 2xx status, where autoAdjust rewrites the status to 500 and
   * so changes the key, or when an issue was there already. On 1xx and 3xx the issue autoAdjust attaches is lost.
   */
  lemma WithErrorSeenIff(rt: Runtime, t: State, e: Err, seed: Seed)
    requires Hashable(t) && !IsError(t) && ResolveStatus(t) == t
    ensures var (y, m) := Render(rt, Step(rt, JustRendered(rt, t), WithErrors(Some(e))), seed);
            m == Build(rt, y.st) <==> IsSuccess(t.statusCode) || t.issue.Some?
  {
    assert Step(rt, JustRendered(rt, t), WithErrors(Some(e))) == JustRendered(rt, t).(st := t.(errors := Some(e)));
    ErrorOnCached(rt, t, e, seed);
  }

  /** The first render of a hashable state without an error leaves it just rendered, with its status resolved. */
  lemma FirstRender(rt: Runtime, s: State, seed: Seed)
    requires !IsError(s) && !IsFailure(HeaderCode(s.header))
    ensures var t := ResolveStatus(s);
            && Render(rt, Uncached(s), seed) == (JustRendered(rt, t), Build(rt, t))
            && ResolveStatus(t) == t && !IsError(t) && (Hashable(s) ==> Hashable(t))
            && t == s.(statusCode := t.statusCode)
  {
  }

  lemma DebugCell(rt: Runtime, t: State, d: Dict)
    requires |d| > 0
    ensures Lookup(Build(rt, t.(debug := d)), KDebug) == Some(Obj(d))
  {
    BuildCells(rt, t.(debug := d));
  }

  lemma EntryThere(d: Dict, k: Key, v: Value)
    ensures d[k := v] == d <==> Lookup(d, k) == Some(v)
  {
    assert Lookup(d[k := v], k) == Some(v);
  }

  /**
   * From a wrapper that was never rendered: Respond, an entry written, the debug map replaced by one with the entries
   * it had at first, Respond. The key is the cached one, and the returned map shows the entry.
   */
  lemma WrittenThenRestored(rt: Runtime, s: State, k: Key, v: Value, seed: Seed, seed': Seed)
    requires Hashable(s) && !IsError(s) && !IsFailure(HeaderCode(s.header)) && |s.debug| > 0
    ensures var first := Render(rt, Uncached(s), seed).0;
            var x := Step(rt, Step(rt, first, WithDebuggingKV(k, v)), WithDebugging(s.debug));
            var (y, m) := Render(rt, x, seed');
            && y.st.debug == s.debug && Lookup(m, KDebug) == Some(Obj(s.debug[k := v]))
            && (m == Build(rt, y.st) <==> Lookup(s.debug, k) == Some(v))
  {
    var t := ResolveStatus(s);
    FirstRender(rt, s, seed);
    WrittenThenReplaced(rt, t, k, v, s.debug, seed');
    DebugCell(rt, t, s.debug[k := v]);
    EntryThere(s.debug, k, v);
  }
}
