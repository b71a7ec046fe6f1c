/**
 * A wrapper and its clone in use: the writes that each public call makes to the heap, and runs of calls on both,
 * interleaved in any way.
 */
module CloneRuns {
  import opened Values
  import opened Library
  import opened Parts
  import opened Pages
  import opened Envelope
  import opened Normalize
  import opened Signing
  import opened Runs
  import opened CloneHeap

  // ---- Sequences of writes ----

  function ValueRun(rt: Runtime, x: Snapshot, ops: seq<Write>): Snapshot
    decreases |ops|
  {
    if ops == [] then x else ValueRun(rt, ValueStep(rt, x, ops[0]), ops[1..])
  }

  /** The package-level headers that the calls themselves store. */
  const INTERNAL_AT: nat := 0
  const BAD_REQUEST_AT: nat := 1

  predicate Standard(package: Headers) {
    && INTERNAL_AT in package && package[INTERNAL_AT] == INTERNAL_SERVER_ERROR
    && BAD_REQUEST_AT in package && package[BAD_REQUEST_AT] == BAD_REQUEST
  }

  /** A write that goes to nothing that another wrapper may share, whatever is shared. */
  predicate Calm(package: Headers, op: Write) {
    && (op.UseHeader? ==> op.g in package && package[op.g] == op.hd)
    && (op.ToHeader? ==> op.header.Fresh?)
    && (op.ToSignature? ==> op.sign.SetSignature?)
  }

  predicate AllCalm(package: Headers, ops: seq<Write>) {
    forall i :: 0 <= i < |ops| ==> Calm(package, ops[i])
  }

  /** The writes take x to y, and every one of them is calm. */
  predicate Takes(rt: Runtime, package: Headers, x: Snapshot, ops: seq<Write>, y: Snapshot) {
    ValueRun(rt, x, ops) == y && AllCalm(package, ops)
  }

  lemma TakesNone(rt: Runtime, package: Headers, x: Snapshot)
    ensures Takes(rt, package, x, [], x)
  {
  }

  lemma TakesOne(rt: Runtime, package: Headers, x: Snapshot, op: Write)
    requires Calm(package, op)
    ensures Takes(rt, package, x, [op], ValueStep(rt, x, op))
  {
    assert ValueRun(rt, ValueStep(rt, x, op), []) == ValueStep(rt, x, op);
  }

  lemma {:induction false} RunSplits(rt: Runtime, x: Snapshot, a: seq<Write>, b: seq<Write>)
    ensures ValueRun(rt, x, a + b) == ValueRun(rt, ValueRun(rt, x, a), b)
    decreases |a|
  {
    if a == [] {
      assert a + b == b;
    } else {
      assert (a + b)[1..] == a[1..] + b;
      RunSplits(rt, ValueStep(rt, x, a[0]), a[1..], b);
    }
  }

  lemma TakesThen(rt: Runtime, package: Headers, x: Snapshot, a: seq<Write>, y: Snapshot, b: seq<Write>, z: Snapshot)
    requires Takes(rt, package, x, a, y) && Takes(rt, package, y, b, z)
    ensures Takes(rt, package, x, a + b, z)
  {
    RunSplits(rt, x, a, b);
  }

  lemma TakesTwo(rt: Runtime, package: Headers, x: Snapshot, op: Write, op': Write)
    requires Calm(package, op) && Calm(package, op')
    ensures Takes(rt, package, x, [op, op'], ValueStep(rt, ValueStep(rt, x, op), op'))
  {
    TakesOne(rt, package, x, op);
    TakesOne(rt, package, ValueStep(rt, x, op), op');
    TakesThen(rt, package, x, [op], ValueStep(rt, x, op), [op'], ValueStep(rt, ValueStep(rt, x, op), op'));
    assert [op] + [op'] == [op, op'];
  }

  /** Three stages in a row. */
  lemma TakesThree(rt: Runtime, package: Headers, x: Snapshot, a: seq<Write>, y: Snapshot, b: seq<Write>, z: Snapshot,
                   c: seq<Write>, u: Snapshot)
    requires Takes(rt, package, x, a, y) && Takes(rt, package, y, b, z) && Takes(rt, package, z, c, u)
    ensures Takes(rt, package, x, a + b + c, u)
  {
    TakesThen(rt, package, x, a, y, b, z);
    TakesThen(rt, package, x, a + b, z, c, u);
  }

  function Maybe(b: bool, op: Write): seq<Write> {
    if b then [op] else []
  }

  lemma TakesMaybe(rt: Runtime, package: Headers, x: Snapshot, b: bool, op: Write)
    requires Calm(package, op)
    ensures Takes(rt, package, x, Maybe(b, op), if b then ValueStep(rt, x, op) else x)
  {
    TakesOne(rt, package, x, op);
    TakesNone(rt, package, x);
  }

  // ---- The writes of autoAdjust and of a render ----

  function OverridePlan(rt: Runtime, s: State): seq<Write> {
    if s.errors.Some? && IsSuccess(s.statusCode)
    then [ToDebug(PutDebug(KStatusOverride, Str(rt.overrideNote(s.statusCode))))]
         + [UseHeader(INTERNAL_AT, INTERNAL_SERVER_ERROR), ToPlain(s.(statusCode := 500))]
    else []
  }

  function IssuePlan(s: State, seed: Seed): seq<Write> {
    if s.errors.Some? && s.issue.None? then [ToIssue(Fresh(Some(NewIssue(s.errors.value, seed))))] else []
  }

  function AdjustPlan(rt: Runtime, s: State, seed: Seed): seq<Write> {
    var t := FillError(rt, s, seed);
    [ToPlain(t)] + OverridePlan(rt, t) + IssuePlan(OverrideStatus(rt, t), seed)
  }

  function CachePlan(rt: Runtime, x: Snapshot, s: State): seq<Write> {
    Maybe(!Hit(rt, x, s), Rebuild)
  }

  function RenderPlan(rt: Runtime, x: Snapshot, seed: Seed): seq<Write> {
    var s := Rendering(rt, x.st, seed);
    AdjustPlan(rt, x.st, seed) + [ToPlain(s)] + CachePlan(rt, x, s)
  }

  function Overridden(rt: Runtime, x: Snapshot): Snapshot {
    x.(st := OverrideStatus(rt, x.st), cached := Leave(x.cached, x.st, AdjustGivesUp(x.st)))
  }

  lemma NothingLeft(o: Option<Image>, s: State)
    ensures Leave(o, s, NOTHING) == o
  {
  }

  lemma OverrideEnds(rt: Runtime, y: Snapshot, s: State)
    requires y.st == s.(debug := y.st.debug)
    ensures ValueStep(rt, ValueStep(rt, y, UseHeader(INTERNAL_AT, INTERNAL_SERVER_ERROR)),
                      ToPlain(s.(statusCode := 500))) ==
            y.(st := y.st.(header := Some(INTERNAL_SERVER_ERROR), statusCode := 500))
  {
  }

  lemma OverrideTakes(rt: Runtime, package: Headers, x: Snapshot)
    requires Standard(package)
    ensures Takes(rt, package, x, OverridePlan(rt, x.st), Overridden(rt, x))
  {
    var s := x.st;
    NothingLeft(x.cached, s);
    if s.errors.Some? && IsSuccess(s.statusCode) {
      var a := ToDebug(PutDebug(KStatusOverride, Str(rt.overrideNote(s.statusCode))));
      var b, c := UseHeader(INTERNAL_AT, INTERNAL_SERVER_ERROR), ToPlain(s.(statusCode := 500));
      var y := ValueStep(rt, x, a);
      TakesOne(rt, package, x, a);
      TakesTwo(rt, package, y, b, c);
      OverrideEnds(rt, y, s);
      TakesThen(rt, package, x, [a], y, [b, c], ValueStep(rt, ValueStep(rt, y, b), c));
    }
  }

  lemma FillErrorPlain(rt: Runtime, s: State, seed: Seed)
    ensures PlainStep(s, FillError(rt, s, seed)) == FillError(rt, s, seed)
  {
  }

  lemma IssueTakes(rt: Runtime, package: Headers, x: Snapshot, seed: Seed)
    ensures Takes(rt, package, x, IssuePlan(x.st, seed), x.(st := FillIssue(x.st, seed)))
  {
    if x.st.errors.Some? && x.st.issue.None? {
      TakesOne(rt, package, x, ToIssue(Fresh(Some(NewIssue(x.st.errors.value, seed)))));
    }
  }

  function Adjusted(rt: Runtime, x: Snapshot, seed: Seed): Snapshot {
    x.(st := Adjust(rt, x.st, seed), cached := Leave(x.cached, x.st, AdjustGivesUp(x.st)))
  }

  lemma AdjustTakes(rt: Runtime, package: Headers, x: Snapshot, seed: Seed)
    requires Standard(package)
    ensures Takes(rt, package, x, AdjustPlan(rt, x.st, seed), Adjusted(rt, x, seed))
  {
    var t := FillError(rt, x.st, seed);
    var u := Overridden(rt, x.(st := t));
    TakesOne(rt, package, x, ToPlain(t));
    FillErrorPlain(rt, x.st, seed);
    NothingLeft(x.cached, x.st);
    OverrideTakes(rt, package, x.(st := t));
    TakesThen(rt, package, x, [ToPlain(t)], x.(st := t), OverridePlan(rt, t), u);
    IssueTakes(rt, package, u, seed);
    FillErrorGivesUp(rt, x.cached, x.st, seed);
    TakesThen(rt, package, x, [ToPlain(t)] + OverridePlan(rt, t), u, IssuePlan(u.st, seed), Adjusted(rt, x, seed));
  }

  lemma ResolvePlain(s: State)
    ensures PlainStep(s, ResolveStatus(s)) == ResolveStatus(s)
  {
  }

  lemma RenderTakes(rt: Runtime, package: Headers, x: Snapshot, seed: Seed)
    requires Standard(package)
    ensures Takes(rt, package, x, RenderPlan(rt, x, seed), Render(rt, x, seed).0)
  {
    var a, s := Adjusted(rt, x, seed), Rendering(rt, x.st, seed);
    AdjustTakes(rt, package, x, seed);
    TakesOne(rt, package, a, ToPlain(s));
    ResolvePlain(a.st);
    NothingLeft(a.cached, a.st);
    TakesThen(rt, package, x, AdjustPlan(rt, x.st, seed), a, [ToPlain(s)], a.(st := s));
    TakesMaybe(rt, package, a.(st := s), !Hit(rt, x, s), Rebuild);
    TakesThen(rt, package, x, AdjustPlan(rt, x.st, seed) + [ToPlain(s)], a.(st := s), CachePlan(rt, x, s),
              Render(rt, x, seed).0);
  }

  // ---- The writes of the fluent calls ----

  /** The calls that change no more than fields that are no pointers. */
  predicate PlainCall(op: Op) {
    || op.WithTotal? || op.WithMessage? || op.WithBody? || op.WithPath? || op.WithErrors? || op.AppendErrs?
    || op.BindCause? || op.WithSkipBody? || op.ReadStatusCode?
  }

  function ReleaseWrite(p: Part): Write {
    match p
    case PartIssue => ToIssue(Fresh(None))
    case PartCursor => ToCursor(Fresh(None))
    case PartDebug => ToDebug(SetDebug(map[]))
    case PartLinks => ToLinks(SetLinks(None))
    case PartSignature => ToSignature(SetSignature(None))
    case PartReason => ToReason(Fresh(None))
  }

  const RESPONSE_CLEARED: seq<Write> :=
    [ToPlain(ZERO_STATE), DropCache] + [ToHeader(Fresh(None)), ToPages(Fresh(None))] + [ToCursor(Fresh(None))]

  /** Reset: every field gets its zero value, and meta its defaults. */
  function ResetPlan(defaults: Meta): seq<Write> {
    RESPONSE_CLEARED + [ToIssue(Fresh(None)), ToSignature(SetSignature(None))]
    + [ToReason(Fresh(None)), ToLinks(SetLinks(None))] + [ToDebug(SetDebug(map[])), ToMeta(SetMeta(Some(defaults)))]
  }

  /** The calls that make one write, or two. */
  function EditPlan(rt: Runtime, s: State, op: Op): seq<Write> {
    match op
    case WithStatusCode(code) => [ToHeader(Fresh(Some(StatusHeader(rt, code)))), ToPlain(Edit(rt, s, op))]
    case WithHeader(h) => if h.Some? then [ToHeader(Fresh(h)), ToPlain(Edit(rt, s, op))] else []
    case WithMeta(m) => [ToMeta(SetMeta(m))]
    case WithMetaEdit(e) => [ToMeta(ChangeMeta(e))]
    case WithPagination(p) => [ToPages(Fresh(p))]
    case WithPageEdit(e) => [ToPages(Filled(EditPages(s.pagination, e)))]
    case WithCursor(c) => [ToCursor(Fresh(c))]
    case WithCursorEdit(e) => [ToCursor(Filled(EditCursor(s.cursor, e)))]
    case WithDebugging(d) => [ToDebug(SetDebug(d))]
    case WithDebuggingKV(k, v) => [ToDebug(PutDebug(k, v))]
    case WithIssue(i) => Maybe(i.Some?, ToIssue(Fresh(i)))
    case WithSignature(g) => Maybe(g.Some?, ToSignature(SetSignature(g)))
    case WithReasonEdit(e) => [ToReason(Filled(EditReason(rt, s.reason, e)))]
    case WithLinks(ls) => if ls.Some? then [ToLinks(SetLinks(ls)), DropCache] else []
    case WithLinkObject(rel, l) => if l.Some? then [ToLinks(PutLink(rel, l.value)), DropCache] else []
    case WithReason(r) => if r.Some? then [ToReason(Fresh(r)), DropCache] else []
    case ReleasePart(p) => [ReleaseWrite(p), DropCache]
    case _ => [ToPlain(Edit(rt, s, op))]
  }

  function StepPlan(rt: Runtime, x: Snapshot, op: Op): seq<Write> {
    match op
    case AutoAdjust(seed) => AdjustPlan(rt, x.st, seed)
    case Respond(seed) => RenderPlan(rt, x, seed)
    case Reset(m) => ResetPlan(m)
    case _ => EditPlan(rt, x.st, op)
  }

  lemma PlainEdit(rt: Runtime, x: Snapshot, op: Op)
    requires PlainCall(op)
    ensures Step(rt, x, op) == x.(st := PlainStep(x.st, Edit(rt, x.st, op)))
  {
  }

  lemma PlainTakes(rt: Runtime, package: Headers, x: Snapshot, op: Op)
    requires PlainCall(op)
    ensures Takes(rt, package, x, EditPlan(rt, x.st, op), Step(rt, x, op))
  {
    TakesOne(rt, package, x, ToPlain(Edit(rt, x.st, op)));
    PlainEdit(rt, x, op);
  }

  /** The calls that make one write to an attached struct. */
  predicate OneWrite(op: Op) {
    || op.WithMeta? || op.WithMetaEdit? || op.WithPagination? || op.WithPageEdit? || op.WithCursor?
    || op.WithCursorEdit? || op.WithDebugging? || op.WithDebuggingKV? || op.WithIssue? || op.WithSignature?
    || op.WithReasonEdit?
  }

  lemma OneTakes(rt: Runtime, package: Headers, x: Snapshot, op: Op)
    requires OneWrite(op)
    ensures Takes(rt, package, x, EditPlan(rt, x.st, op), Step(rt, x, op))
  {
    var ops := EditPlan(rt, x.st, op);
    if ops == [] {
      TakesNone(rt, package, x);
    } else {
      TakesOne(rt, package, x, ops[0]);
      assert ops == [ops[0]];
    }
  }

  /** The calls that make one write and drop the cached map. */
  predicate TwoWrites(op: Op) {
    || op.WithLinks? || op.WithLinkObject? || op.WithReason? || op.ReleasePart?
  }

  lemma StatusTakes(rt: Runtime, package: Headers, x: Snapshot, op: Op)
    requires op.WithStatusCode? || op.WithHeader?
    ensures Takes(rt, package, x, EditPlan(rt, x.st, op), Step(rt, x, op))
  {
    var ops := EditPlan(rt, x.st, op);
    if ops == [] {
      TakesNone(rt, package, x);
    } else {
      TakesTwo(rt, package, x, ops[0], ops[1]);
      assert ops == [ops[0], ops[1]];
    }
  }

  lemma TakesDropped(rt: Runtime, package: Headers, x: Snapshot, op: Write)
    requires Calm(package, op) && !op.Rebuild?
    ensures Takes(rt, package, x, [op, DropCache], Uncached(StateStep(x.st, op)))
  {
    TakesTwo(rt, package, x, op, DropCache);
  }

  lemma TwoTakes(rt: Runtime, package: Headers, x: Snapshot, op: Op)
    requires TwoWrites(op)
    ensures Takes(rt, package, x, EditPlan(rt, x.st, op), Step(rt, x, op))
  {
    var ops := EditPlan(rt, x.st, op);
    if ops == [] {
      TakesNone(rt, package, x);
    } else {
      assert ops == [ops[0], DropCache];
      TakesDropped(rt, package, x, ops[0]);
    }
  }

  /** Two more writes. */
  lemma TakesMore(rt: Runtime, package: Headers, x: Snapshot, ops: seq<Write>, y: Snapshot, op: Write, op': Write)
    requires Takes(rt, package, x, ops, y) && Calm(package, op) && Calm(package, op')
    ensures Takes(rt, package, x, ops + [op, op'], ValueStep(rt, ValueStep(rt, y, op), op'))
  {
    TakesTwo(rt, package, y, op, op');
    TakesThen(rt, package, x, ops, y, [op, op'], ValueStep(rt, ValueStep(rt, y, op), op'));
  }

  lemma ResponseTakes(rt: Runtime, package: Headers, x: Snapshot)
    ensures Takes(rt, package, x, RESPONSE_CLEARED,
                  Uncached(PlainStep(x.st, ZERO_STATE).(header := None, pagination := None, cursor := None)))
  {
    var ops := [ToPlain(ZERO_STATE), DropCache];
    var y := Uncached(PlainStep(x.st, ZERO_STATE));
    var z := y.(st := y.st.(header := None, pagination := None));
    TakesTwo(rt, package, x, ToPlain(ZERO_STATE), DropCache);
    TakesMore(rt, package, x, ops, y, ToHeader(Fresh(None)), ToPages(Fresh(None)));
    TakesOne(rt, package, z, ToCursor(Fresh(None)));
    TakesThen(rt, package, x, ops + [ToHeader(Fresh(None)), ToPages(Fresh(None))], z, [ToCursor(Fresh(None))],
              z.(st := z.st.(cursor := None)));
  }

  lemma ResetTakes(rt: Runtime, package: Headers, x: Snapshot, m: Meta)
    ensures Takes(rt, package, x, ResetPlan(m), Uncached(ResetState(m)))
  {
    var y := Uncached(PlainStep(x.st, ZERO_STATE).(header := None, pagination := None, cursor := None));
    var z := y.(st := y.st.(issue := None, signature := None));
    var u := z.(st := z.st.(reason := None, links := None));
    var ops := RESPONSE_CLEARED + [ToIssue(Fresh(None)), ToSignature(SetSignature(None))];
    ResponseTakes(rt, package, x);
    TakesMore(rt, package, x, RESPONSE_CLEARED, y, ToIssue(Fresh(None)), ToSignature(SetSignature(None)));
    TakesMore(rt, package, x, ops, z, ToReason(Fresh(None)), ToLinks(SetLinks(None)));
    TakesMore(rt, package, x, ops + [ToReason(Fresh(None)), ToLinks(SetLinks(None))], u, ToDebug(SetDebug(map[])),
              ToMeta(SetMeta(Some(m))));
  }

  /** The writes of a fluent call take the snapshot where the call takes it. */
  lemma StepTakes(rt: Runtime, package: Headers, x: Snapshot, op: Op)
    requires Standard(package)
    ensures Takes(rt, package, x, StepPlan(rt, x, op), Step(rt, x, op))
  {
    if PlainCall(op) {
      PlainTakes(rt, package, x, op);
    } else if OneWrite(op) {
      OneTakes(rt, package, x, op);
    } else if TwoWrites(op) {
      TwoTakes(rt, package, x, op);
    } else if op.WithStatusCode? || op.WithHeader? {
      StatusTakes(rt, package, x, op);
    } else if op.Reset? {
      ResetTakes(rt, package, x, op.defaults);
    } else if op.AutoAdjust? {
      AdjustTakes(rt, package, x, op.seed);
    } else {
      RenderTakes(rt, package, x, op.seed);
    }
  }

  // ---- The writes of NormAll ----

  function SignalPlan(changed: bool, delta: Decimal): seq<Write> {
    Maybe(changed, ToMeta(ChangeMeta(MetaDelta(delta))))
  }

  lemma SignalTakes(rt: Runtime, package: Headers, x: Snapshot, changed: bool, delta: Decimal)
    ensures Takes(rt, package, x, SignalPlan(changed, delta), x.(st := Signal(x.st, changed, delta)))
  {
    TakesMaybe(rt, package, x, changed, ToMeta(ChangeMeta(MetaDelta(delta))));
  }

  /** A stage: its own writes, then the signal. */
  lemma StageTakes(rt: Runtime, package: Headers, x: Snapshot, ops: seq<Write>, t: State, changed: bool, delta: Decimal)
    requires Takes(rt, package, x, ops, x.(st := t))
    ensures Takes(rt, package, x, ops + SignalPlan(changed, delta), x.(st := Signal(t, changed, delta)))
  {
    SignalTakes(rt, package, x.(st := t), changed, delta);
    TakesThen(rt, package, x, ops, x.(st := t), SignalPlan(changed, delta), x.(st := Signal(t, changed, delta)));
  }

  function HscWrites(rt: Runtime, s: State): seq<Write> {
    if s.header.Some? then [ToPlain(s.(statusCode := s.header.value.code))]
    else if s.statusCode > 0 then [ToHeader(Fresh(Some(HeaderOf(rt, s.statusCode))))]
    else []
  }

  function FillWrites(s: State, d: Draws): seq<Write> {
    var m := if s.meta.Some? then s.meta.value else EMPTY_META;
    Maybe(IsEmpty(m.locale), ToMeta(ChangeMeta(MetaLocale("en_US"))))
    + Maybe(IsEmpty(m.apiVersion), ToMeta(ChangeMeta(MetaApiVersion("v0.0.1"))))
    + Maybe(IsEmpty(m.requestID), ToMeta(ChangeMeta(MetaRequestID(d.requestID))))
    + Maybe(m.requestedTime == 0, ToMeta(ChangeMeta(MetaTime(d.now))))
  }

  function BodyWrites(s: State): seq<Write> {
    [ToPlain(s.(total := TotalOf(s)))]
    + if PagesOf(s).Some? then [ToPages(InPlace(PagesOf(s).value))] else []
  }

  function PagingWrites(s: State): seq<Write> {
    if s.pagination.Some? then [ToPages(InPlace(Norm(s.pagination.value)))] else []
  }

  function TextWrites(s: State): seq<Write> {
    Maybe(MessageSignals(s), ToPlain(s.(message := ClassName(s.statusCode))))
  }

  function HeadPlan(rt: Runtime, s: State, d: Draws): seq<Write> {
    var s1 := NormHSC(rt, s, d.hsc);
    var s2 := NormMeta(s1, d);
    (HscWrites(rt, s) + SignalPlan(HscSignals(s), d.hsc)) + (FillWrites(s1, d) + SignalPlan(MetaSignals(s1), d.metas))
    + (BodyWrites(s2) + SignalPlan(BodySignals(s2), d.body))
  }

  function TailPlan(s: State, d: Draws): seq<Write> {
    var s1 := NormPaging(s, d.paging);
    var s2 := NormMessage(s1, d.text);
    (PagingWrites(s) + SignalPlan(s.pagination.Some?, d.paging))
    + (TextWrites(s1) + SignalPlan(MessageSignals(s1), d.text))
    + ([ToDebug(PruneDebug)] + SignalPlan(HasNil(s2.debug), d.debugs))
  }

  function NormPlan(rt: Runtime, s: State, d: Draws): seq<Write> {
    HeadPlan(rt, s, d) + TailPlan(NormHead(rt, s, d), d)
  }

  lemma HscTakes(rt: Runtime, package: Headers, x: Snapshot, delta: Decimal)
    ensures Takes(rt, package, x, HscWrites(rt, x.st) + SignalPlan(HscSignals(x.st), delta),
                  x.(st := NormHSC(rt, x.st, delta)))
  {
    var s := x.st;
    var ops := HscWrites(rt, s);
    var t := if s.header.Some? then s.(statusCode := s.header.value.code)
             else if s.statusCode > 0 then s.(header := Some(HeaderOf(rt, s.statusCode)))
             else s;
    if ops != [] { TakesOne(rt, package, x, ops[0]); assert ops == [ops[0]]; }
    StageTakes(rt, package, x, ops, t, HscSignals(s), delta);
  }

  /** An edit of meta that is no edit of its custom fields, if b. */
  function MetaIf(x: Snapshot, b: bool, e: MetaEdit): Snapshot {
    if b then x.(st := x.st.(meta := Some(EditMeta(x.st.meta, e)))) else x
  }

  lemma TakesMetaIf(rt: Runtime, package: Headers, x: Snapshot, b: bool, e: MetaEdit)
    requires !e.MetaCustomFields? && !e.MetaCustomKV?
    ensures Takes(rt, package, x, Maybe(b, ToMeta(ChangeMeta(e))), MetaIf(x, b, e))
  {
    NothingLeft(x.cached, x.st);
    TakesMaybe(rt, package, x, b, ToMeta(ChangeMeta(e)));
  }

  /** The four defaults, one after the other. */
  lemma FilledMeta(x: Snapshot, d: Draws, m: Meta)
    requires m == if x.st.meta.Some? then x.st.meta.value else EMPTY_META
    ensures var x1 := MetaIf(x, IsEmpty(m.locale), MetaLocale("en_US"));
            var x2 := MetaIf(x1, IsEmpty(m.apiVersion), MetaApiVersion("v0.0.1"));
            var x3 := MetaIf(x2, IsEmpty(m.requestID), MetaRequestID(d.requestID));
            MetaIf(x3, m.requestedTime == 0, MetaTime(d.now)) == x.(st := x.st.(meta := Some(FillMeta(m, d))))
  {
    assert IsEmpty("");
  }

  lemma FillTakes(rt: Runtime, package: Headers, x: Snapshot, d: Draws)
    ensures var m := if x.st.meta.Some? then x.st.meta.value else EMPTY_META;
            Takes(rt, package, x, FillWrites(x.st, d), x.(st := x.st.(meta := Some(FillMeta(m, d)))))
  {
    var m := if x.st.meta.Some? then x.st.meta.value else EMPTY_META;
    var a, b, c, e := IsEmpty(m.locale), IsEmpty(m.apiVersion), IsEmpty(m.requestID), m.requestedTime == 0;
    var x1 := MetaIf(x, a, MetaLocale("en_US"));
    var x2 := MetaIf(x1, b, MetaApiVersion("v0.0.1"));
    var x3 := MetaIf(x2, c, MetaRequestID(d.requestID));
    TakesMetaIf(rt, package, x, a, MetaLocale("en_US"));
    TakesMetaIf(rt, package, x1, b, MetaApiVersion("v0.0.1"));
    TakesMetaIf(rt, package, x2, c, MetaRequestID(d.requestID));
    TakesMetaIf(rt, package, x3, e, MetaTime(d.now));
    FilledMeta(x, d, m);
    TakesThree(rt, package, x, Maybe(a, ToMeta(ChangeMeta(MetaLocale("en_US")))), x1,
               Maybe(b, ToMeta(ChangeMeta(MetaApiVersion("v0.0.1")))), x2,
               Maybe(c, ToMeta(ChangeMeta(MetaRequestID(d.requestID)))), x3);
    TakesThen(rt, package, x, Maybe(a, ToMeta(ChangeMeta(MetaLocale("en_US"))))
              + Maybe(b, ToMeta(ChangeMeta(MetaApiVersion("v0.0.1"))))
              + Maybe(c, ToMeta(ChangeMeta(MetaRequestID(d.requestID)))), x3,
              Maybe(e, ToMeta(ChangeMeta(MetaTime(d.now)))), MetaIf(x3, e, MetaTime(d.now)));
  }

  lemma MetaTakes(rt: Runtime, package: Headers, x: Snapshot, d: Draws)
    ensures Takes(rt, package, x, FillWrites(x.st, d) + SignalPlan(MetaSignals(x.st), d.metas),
                  x.(st := NormMeta(x.st, d)))
  {
    var m := if x.st.meta.Some? then x.st.meta.value else EMPTY_META;
    FillTakes(rt, package, x, d);
    StageTakes(rt, package, x, FillWrites(x.st, d), x.st.(meta := Some(FillMeta(m, d))), MetaSignals(x.st), d.metas);
  }

  lemma BodyTakes(rt: Runtime, package: Headers, x: Snapshot, delta: Decimal)
    ensures Takes(rt, package, x, BodyWrites(x.st) + SignalPlan(BodySignals(x.st), delta),
                  x.(st := NormBody(x.st, delta)))
  {
    var s := x.st;
    var t := s.(total := TotalOf(s));
    TakesOne(rt, package, x, ToPlain(t));
    var ops := if PagesOf(s).Some? then [ToPages(InPlace(PagesOf(s).value))] else [];
    if PagesOf(s).Some? {
      TakesOne(rt, package, x.(st := t), ToPages(InPlace(PagesOf(s).value)));
    } else {
      TakesNone(rt, package, x.(st := t));
    }
    TakesThen(rt, package, x, [ToPlain(t)], x.(st := t), ops, x.(st := t.(pagination := PagesOf(s))));
    StageTakes(rt, package, x, BodyWrites(s), t.(pagination := PagesOf(s)), BodySignals(s), delta);
  }

  lemma PagingTakes(rt: Runtime, package: Headers, x: Snapshot, delta: Decimal)
    ensures Takes(rt, package, x, PagingWrites(x.st) + SignalPlan(x.st.pagination.Some?, delta),
                  x.(st := NormPaging(x.st, delta)))
  {
    var s := x.st;
    if s.pagination.Some? {
      TakesOne(rt, package, x, ToPages(InPlace(Norm(s.pagination.value))));
      StageTakes(rt, package, x, PagingWrites(s), s.(pagination := Some(Norm(s.pagination.value))), true, delta);
    } else {
      TakesNone(rt, package, x);
    }
  }

  lemma TextTakes(rt: Runtime, package: Headers, x: Snapshot, delta: Decimal)
    ensures Takes(rt, package, x, TextWrites(x.st) + SignalPlan(MessageSignals(x.st), delta),
                  x.(st := NormMessage(x.st, delta)))
  {
    var s := x.st;
    var t := s.(message := if MessageSignals(s) then ClassName(s.statusCode) else s.message);
    TakesMaybe(rt, package, x, MessageSignals(s), ToPlain(s.(message := ClassName(s.statusCode))));
    StageTakes(rt, package, x, TextWrites(s), t, MessageSignals(s), delta);
  }

  lemma DebugTakes(rt: Runtime, package: Headers, x: Snapshot, delta: Decimal)
    ensures Takes(rt, package, x, [ToDebug(PruneDebug)] + SignalPlan(HasNil(x.st.debug), delta),
                  x.(st := NormDebug(x.st, delta)))
  {
    TakesOne(rt, package, x, ToDebug(PruneDebug));
    StageTakes(rt, package, x, [ToDebug(PruneDebug)], x.st.(debug := Meaningful(x.st.debug)), HasNil(x.st.debug),
               delta);
  }

  lemma HeadTakes(rt: Runtime, package: Headers, x: Snapshot, d: Draws)
    ensures Takes(rt, package, x, HeadPlan(rt, x.st, d), x.(st := NormHead(rt, x.st, d)))
  {
    var s1 := NormHSC(rt, x.st, d.hsc);
    var s2 := NormMeta(s1, d);
    HscTakes(rt, package, x, d.hsc);
    MetaTakes(rt, package, x.(st := s1), d);
    BodyTakes(rt, package, x.(st := s2), d.body);
    TakesThree(rt, package, x, HscWrites(rt, x.st) + SignalPlan(HscSignals(x.st), d.hsc), x.(st := s1),
               FillWrites(s1, d) + SignalPlan(MetaSignals(s1), d.metas), x.(st := s2),
               BodyWrites(s2) + SignalPlan(BodySignals(s2), d.body), x.(st := NormBody(s2, d.body)));
  }

  lemma TailTakes(rt: Runtime, package: Headers, x: Snapshot, d: Draws)
    ensures Takes(rt, package, x, TailPlan(x.st, d), x.(st := NormTail(x.st, d)))
  {
    var s1 := NormPaging(x.st, d.paging);
    var s2 := NormMessage(s1, d.text);
    PagingTakes(rt, package, x, d.paging);
    TextTakes(rt, package, x.(st := s1), d.text);
    DebugTakes(rt, package, x.(st := s2), d.debugs);
    TakesThree(rt, package, x, PagingWrites(x.st) + SignalPlan(x.st.pagination.Some?, d.paging), x.(st := s1),
               TextWrites(s1) + SignalPlan(MessageSignals(s1), d.text), x.(st := s2),
               [ToDebug(PruneDebug)] + SignalPlan(HasNil(s2.debug), d.debugs), x.(st := NormDebug(s2, d.debugs)));
  }

  lemma NormTakes(rt: Runtime, package: Headers, x: Snapshot, d: Draws)
    ensures Takes(rt, package, x, NormPlan(rt, x.st, d), x.(st := NormAll(rt, x.st, d)))
  {
    HeadTakes(rt, package, x, d);
    TailTakes(rt, package, x.(st := NormHead(rt, x.st, d)), d);
    TakesThen(rt, package, x, HeadPlan(rt, x.st, d), x.(st := NormHead(rt, x.st, d)),
              TailPlan(NormHead(rt, x.st, d), d), x.(st := NormAll(rt, x.st, d)));
  }

  // ---- The writes of the signing calls ----

  function PackageAt(hd: Header): nat {
    if hd == BAD_REQUEST then BAD_REQUEST_AT else INTERNAL_AT
  }

  /** What ApplySignature does with the result of GenerateSignature. */
  function SignWrites(y: State, g: Generated, id: nat): seq<Write> {
    if g.Signed? then [ToSignature(SetSignature(Some(g.signature))), DropCache]
    else [UseHeader(PackageAt(g.header), g.header), ToPlain(Refuse(y, g, id))]
  }

  lemma SignWritesTake(rt: Runtime, package: Headers, y: Snapshot, g: Generated, id: nat)
    requires Standard(package) && (g.Refused? ==> g.header == BAD_REQUEST || g.header == INTERNAL_SERVER_ERROR)
    ensures Takes(rt, package, y, SignWrites(y.st, g, id),
                  if g.Signed? then Uncached(y.st.(signature := Some(g.signature))) else y.(st := Refuse(y.st, g, id)))
  {
    var ops := SignWrites(y.st, g, id);
    TakesTwo(rt, package, y, ops[0], ops[1]);
    assert ops == [ops[0], ops[1]];
  }

  function SignPlan(rt: Runtime, c: Crypto, x: Snapshot, call: Call): seq<Write>
    requires call.Sign?
  {
    if IsError(x.st) then []
    else
      var (y, m) := Render(rt, x, call.seed);
      RenderPlan(rt, x, call.seed)
      + SignWrites(y.st, Generate(rt, c, call.config, SignedText(rt, m, call.ignored), call.now), call.id)
  }

  lemma RefusalHeaders(rt: Runtime, c: Crypto, config: Option<Config>, text: string, now: Clock)
    ensures var g := Generate(rt, c, config, text, now);
            g.Refused? ==> g.header == BAD_REQUEST || g.header == INTERNAL_SERVER_ERROR
  {
  }

  lemma SignTakes(rt: Runtime, package: Headers, c: Crypto, x: Snapshot, call: Call)
    requires Standard(package) && call.Sign?
    ensures Takes(rt, package, x, SignPlan(rt, c, x, call), StepCall(rt, c, x, call))
  {
    if IsError(x.st) {
      TakesNone(rt, package, x);
    } else {
      var (y, m) := Render(rt, x, call.seed);
      var text := SignedText(rt, m, call.ignored);
      var g := Generate(rt, c, call.config, text, call.now);
      RenderTakes(rt, package, x, call.seed);
      RefusalHeaders(rt, c, call.config, text, call.now);
      SignWritesTake(rt, package, y, g, call.id);
      TakesThen(rt, package, x, RenderPlan(rt, x, call.seed), y, SignWrites(y.st, g, call.id),
                if g.Signed? then Uncached(y.st.(signature := Some(g.signature)))
                else y.(st := Refuse(y.st, g, call.id)));
    }
  }

  // ---- The writes of any call ----

  function MidPlan(rt: Runtime, x: Snapshot, call: Call): seq<Write> {
    if RenderSeed(x, call).Some? then RenderPlan(rt, x, RenderSeed(x, call).value) else []
  }

  function Plan(rt: Runtime, c: Crypto, x: Snapshot, call: Call): seq<Write> {
    match call
    case Fluent(op) => StepPlan(rt, x, op)
    case Normalise(d) => NormPlan(rt, x.st, d)
    case Sign(_, _, _, _, _) => SignPlan(rt, c, x, call)
    case Check(_, _, _, _) => MidPlan(rt, x, call)
  }

  lemma MidTakes(rt: Runtime, package: Headers, x: Snapshot, call: Call)
    requires Standard(package)
    ensures Takes(rt, package, x, MidPlan(rt, x, call), Mid(rt, x, call))
  {
    if RenderSeed(x, call).Some? {
      RenderTakes(rt, package, x, RenderSeed(x, call).value);
    } else {
      TakesNone(rt, package, x);
    }
  }

  lemma CheckTakes(rt: Runtime, package: Headers, c: Crypto, x: Snapshot, call: Call)
    requires Standard(package) && call.Check?
    ensures Takes(rt, package, x, Plan(rt, c, x, call), StepCall(rt, c, x, call))
  {
    CheckedIsMid(rt, c, x, call);
    MidTakes(rt, package, x, call);
  }

  /** Made one after the other, the writes of a call do what the call does, and none goes to anything shared. */
  lemma PlanMeansCall(rt: Runtime, package: Headers, c: Crypto, x: Snapshot, call: Call)
    requires Standard(package)
    ensures Takes(rt, package, x, Plan(rt, c, x, call), StepCall(rt, c, x, call))
  {
    match call
    case Fluent(op) => StepTakes(rt, package, x, op);
    case Normalise(d) => NormTakes(rt, package, x, d);
    case Sign(_, _, _, _, _) => SignTakes(rt, package, c, x, call);
    case Check(_, _, _, _) => CheckTakes(rt, package, c, x, call);
  }

  // ---- Writes on the heap ----

  function Exec(rt: Runtime, h: Heap, w: Struct, ops: seq<Write>): (Heap, Struct)
    decreases |ops|
  {
    if ops == [] then (h, w) else Exec(rt, After(h, w, ops[0]), Moved(rt, h, w, ops[0]), ops[1..])
  }

  lemma CalmIsAllowed(h: Heap, v: Struct, w: Struct, op: Write)
    requires Calm(h.package, op)
    ensures Sound(h, w, op) && Unshared(h, v, w, op)
  {
  }

  lemma PackageStays(h: Heap, w: Struct, op: Write)
    ensures After(h, w, op).package == h.package
  {
  }

  /** Calm writes do to their own struct what they do to its value, and leave another struct alone. */
  lemma {:induction false} ExecCalm(rt: Runtime, h: Heap, w: Struct, ops: seq<Write>, v: Struct)
    requires Valid(h, w) && Valid(h, v) && Apart(h, v, w) && AllCalm(h.package, ops)
    ensures var (h', w') := Exec(rt, h, w, ops);
            && Snap(h', w') == ValueRun(rt, Snap(h, w), ops) && Snap(h', v) == Snap(h, v)
            && Valid(h', w') && Valid(h', v) && Apart(h', v, w') && h'.package == h.package
    decreases |ops|
  {
    if ops != [] {
      CalmIsAllowed(h, v, w, ops[0]);
      PackageStays(h, w, ops[0]);
      StepOwn(rt, h, w, ops[0]);
      StepOther(rt, h, w, ops[0], v);
      ExecCalm(rt, After(h, w, ops[0]), Moved(rt, h, w, ops[0]), ops[1..], v);
    }
  }

  // ---- Runs on two structs ----

  datatype Move =
    | Do(call: Call)      // a public call
    | Predefined(g: nat)  // OK(), BadRequest() and the like: WithHeader with a package-level header
    | Touch(op: Write)    // a write through a pointer that the wrapper has handed out

  function MovePlan(rt: Runtime, c: Crypto, package: Headers, x: Snapshot, m: Move): seq<Write> {
    match m
    case Do(call) => Plan(rt, c, x, call)
    case Predefined(g) =>
      if g in package then [UseHeader(g, package[g]), ToPlain(x.st.(statusCode := package[g].code))] else []
    case Touch(op) => [op]
  }

  function MoveStep(rt: Runtime, c: Crypto, package: Headers, x: Snapshot, m: Move): Snapshot {
    match m
    case Do(call) => StepCall(rt, c, x, call)
    case Predefined(g) => if g in package then Step(rt, x, WithHeader(Some(package[g]))) else x
    case Touch(op) => ValueStep(rt, x, op)
  }

  function MoveRun(rt: Runtime, c: Crypto, package: Headers, x: Snapshot, moves: seq<Move>): Snapshot {
    if moves == [] then x
    else MoveStep(rt, c, package, MoveRun(rt, c, package, x, moves[..|moves| - 1]), moves[|moves| - 1])
  }

  /** A move on the heap. */
  function Moves(rt: Runtime, c: Crypto, h: Heap, w: Struct, m: Move): (Heap, Struct) {
    Exec(rt, h, w, MovePlan(rt, c, h.package, Snap(h, w), m))
  }

  /** A touch goes to nothing that v shares; calls never do. */
  predicate Allowed(h: Heap, v: Struct, w: Struct, m: Move) {
    m.Touch? ==> Sound(h, w, m.op) && Unshared(h, v, w, m.op)
  }

  lemma PredefinedTakes(rt: Runtime, package: Headers, x: Snapshot, g: nat)
    requires g in package
    ensures Takes(rt, package, x, [UseHeader(g, package[g]), ToPlain(x.st.(statusCode := package[g].code))],
                  Step(rt, x, WithHeader(Some(package[g]))))
  {
    TakesTwo(rt, package, x, UseHeader(g, package[g]), ToPlain(x.st.(statusCode := package[g].code)));
  }

  lemma ExecOne(rt: Runtime, h: Heap, w: Struct, op: Write)
    ensures Exec(rt, h, w, [op]) == (After(h, w, op), Moved(rt, h, w, op)) && After(h, w, op).package == h.package
  {
    assert Exec(rt, After(h, w, op), Moved(rt, h, w, op), []) == (After(h, w, op), Moved(rt, h, w, op));
  }

  /** One move: its own struct goes where the value goes, the other stays, and the two stay apart. */
  lemma MoveSpares(rt: Runtime, c: Crypto, h: Heap, w: Struct, m: Move, v: Struct)
    requires Valid(h, w) && Valid(h, v) && Apart(h, v, w) && Standard(h.package) && Allowed(h, v, w, m)
    ensures var (h', w') := Moves(rt, c, h, w, m);
            && Snap(h', w') == MoveStep(rt, c, h.package, Snap(h, w), m) && Snap(h', v) == Snap(h, v)
            && Valid(h', w') && Valid(h', v) && Apart(h', v, w') && h'.package == h.package
  {
    var x, ops := Snap(h, w), MovePlan(rt, c, h.package, Snap(h, w), m);
    match m
    case Do(call) =>
      PlanMeansCall(rt, h.package, c, x, call);
      ExecCalm(rt, h, w, ops, v);
    case Predefined(g) =>
      if g in h.package { PredefinedTakes(rt, h.package, x, g); }
      ExecCalm(rt, h, w, ops, v);
    case Touch(op) =>
      ExecOne(rt, h, w, op);
      StepOwn(rt, h, w, op);
      StepOther(rt, h, w, op, v);
  }

  /** A move on the first or on the second of two structs. */
  datatype Turn = Turn(first: bool, move: Move)

  /** The heap and the two structs. */
  datatype Pair = Pair(h: Heap, v: Struct, w: Struct)

  predicate Good(p: Pair) {
    && Valid(p.h, p.v) && Valid(p.h, p.w) && Apart(p.h, p.v, p.w) && Standard(p.h.package)
  }

  function TurnStep(rt: Runtime, c: Crypto, p: Pair, t: Turn): Pair {
    if t.first then var (h', v') := Moves(rt, c, p.h, p.v, t.move); Pair(h', v', p.w)
    else var (h', w') := Moves(rt, c, p.h, p.w, t.move); Pair(h', p.v, w')
  }

  function RunBoth(rt: Runtime, c: Crypto, p: Pair, turns: seq<Turn>): Pair {
    if turns == [] then p else TurnStep(rt, c, RunBoth(rt, c, p, turns[..|turns| - 1]), turns[|turns| - 1])
  }

  predicate TurnAllowed(p: Pair, t: Turn) {
    if t.first then Allowed(p.h, p.w, p.v, t.move) else Allowed(p.h, p.v, p.w, t.move)
  }

  /** No touch of the run goes to anything that the two structs share at that moment. */
  predicate Quiet(rt: Runtime, c: Crypto, p: Pair, turns: seq<Turn>) {
    turns == [] ||
    (&& Quiet(rt, c, p, turns[..|turns| - 1])
     && TurnAllowed(RunBoth(rt, c, p, turns[..|turns| - 1]), turns[|turns| - 1]))
  }

  /** The moves made on one of the two. */
  function Own(turns: seq<Turn>, first: bool): seq<Move> {
    if turns == [] then []
    else Own(turns[..|turns| - 1], first)
         + if turns[|turns| - 1].first == first then [turns[|turns| - 1].move] else []
  }

  lemma OwnLast(rt: Runtime, c: Crypto, package: Headers, x: Snapshot, turns: seq<Turn>, first: bool)
    requires turns != []
    ensures var t, y := turns[|turns| - 1], MoveRun(rt, c, package, x, Own(turns[..|turns| - 1], first));
            MoveRun(rt, c, package, x, Own(turns, first)) ==
            if t.first == first then MoveStep(rt, c, package, y, t.move) else y
  {
    var t, past := turns[|turns| - 1], Own(turns[..|turns| - 1], first);
    if t.first == first {
      assert Own(turns, first)[..|past|] == past && Own(turns, first)[|past|] == t.move;
    } else {
      assert Own(turns, first) == past;
    }
  }

  lemma TurnSpares(rt: Runtime, c: Crypto, p: Pair, t: Turn)
    requires Good(p) && TurnAllowed(p, t)
    ensures var q := TurnStep(rt, c, p, t);
            && Good(q) && q.h.package == p.h.package
            && Snap(q.h, q.v) == (if t.first then MoveStep(rt, c, p.h.package, Snap(p.h, p.v), t.move)
                                  else Snap(p.h, p.v))
            && Snap(q.h, q.w) == (if t.first then Snap(p.h, p.w)
                                  else MoveStep(rt, c, p.h.package, Snap(p.h, p.w), t.move))
  {
    ApartEitherWay(p.h, p.v, p.w);
    if t.first {
      MoveSpares(rt, c, p.h, p.v, t.move, p.w);
      var (h', v') := Moves(rt, c, p.h, p.v, t.move);
      ApartEitherWay(h', p.w, v');
    } else {
      MoveSpares(rt, c, p.h, p.w, t.move, p.v);
    }
  }

  /** Two structs apart stay apart, and each ends where its own moves alone lead to, however they interleave. */
  lemma {:induction false} RunsIndependent(rt: Runtime, c: Crypto, p: Pair, turns: seq<Turn>)
    requires Good(p) && Quiet(rt, c, p, turns)
    ensures var q := RunBoth(rt, c, p, turns);
            && Good(q) && q.h.package == p.h.package
            && Snap(q.h, q.v) == MoveRun(rt, c, p.h.package, Snap(p.h, p.v), Own(turns, true))
            && Snap(q.h, q.w) == MoveRun(rt, c, p.h.package, Snap(p.h, p.w), Own(turns, false))
    decreases |turns|
  {
    if turns != [] {
      RunsIndependent(rt, c, p, turns[..|turns| - 1]);
      TurnSpares(rt, c, RunBoth(rt, c, p, turns[..|turns| - 1]), turns[|turns| - 1]);
      OwnLast(rt, c, p.h.package, Snap(p.h, p.v), turns, true);
      OwnLast(rt, c, p.h.package, Snap(p.h, p.w), turns, false);
    }
  }

  // ---- A wrapper and its clone ----

  /** The original, with its clone beside it. */
  function WithClone(h: Heap, w: Struct): Pair {
    Pair(AfterClone(h, w), w, Clone(h, w))
  }

  /**
   * After Clone, whatever happens to the original and to the clone, in any order, each ends where its own moves alone
   * lead to, as long as no touch goes to a header map or a package-level header.
   */
  lemma CloneIndependent(rt: Runtime, c: Crypto, h: Heap, w: Struct, turns: seq<Turn>)
    requires Valid(h, w) && Standard(h.package) && Quiet(rt, c, WithClone(h, w), turns)
    ensures var q := RunBoth(rt, c, WithClone(h, w), turns);
            && Good(q)
            && Snap(q.h, q.v) == MoveRun(rt, c, h.package, Snap(h, w), Own(turns, true))
            && Snap(q.h, q.w) == MoveRun(rt, c, h.package, Uncached(Cloned(View(h, w))), Own(turns, false))
  {
    CloneCopies(h, w);
    RunsIndependent(rt, c, WithClone(h, w), turns);
  }

  /** Calls only. */
  predicate OnlyCalls(turns: seq<Turn>) {
    forall i :: 0 <= i < |turns| ==> turns[i].move.Do?
  }

  function Calls(turns: seq<Turn>, first: bool): (calls: seq<Call>)
    requires OnlyCalls(turns)
  {
    if turns == [] then []
    else Calls(turns[..|turns| - 1], first)
         + if turns[|turns| - 1].first == first then [turns[|turns| - 1].move.call] else []
  }

  lemma {:induction false} CallsAreQuiet(rt: Runtime, c: Crypto, p: Pair, turns: seq<Turn>)
    requires OnlyCalls(turns)
    ensures Quiet(rt, c, p, turns)
    decreases |turns|
  {
    if turns != [] {
      CallsAreQuiet(rt, c, p, turns[..|turns| - 1]);
    }
  }

  lemma CallsLast(rt: Runtime, c: Crypto, x: Snapshot, turns: seq<Turn>, first: bool)
    requires OnlyCalls(turns) && turns != []
    ensures var t, y := turns[|turns| - 1], Run(rt, c, x, Calls(turns[..|turns| - 1], first));
            Run(rt, c, x, Calls(turns, first)) == if t.first == first then StepCall(rt, c, y, t.move.call) else y
  {
    var t, past := turns[|turns| - 1], Calls(turns[..|turns| - 1], first);
    if t.first == first {
      assert Calls(turns, first)[..|past|] == past && Calls(turns, first)[|past|] == t.move.call;
    } else {
      assert Calls(turns, first) == past;
    }
  }

  lemma {:induction false} OwnCalls(rt: Runtime, c: Crypto, package: Headers, x: Snapshot, turns: seq<Turn>,
                                    first: bool)
    requires OnlyCalls(turns)
    ensures MoveRun(rt, c, package, x, Own(turns, first)) == Run(rt, c, x, Calls(turns, first))
    decreases |turns|
  {
    if turns != [] {
      OwnCalls(rt, c, package, x, turns[..|turns| - 1], first);
      OwnLast(rt, c, package, x, turns, first);
      CallsLast(rt, c, x, turns, first);
    }
  }

  /** Public calls on the original and on the clone never meet: each runs as if the other did not exist. */
  lemma CallsIndependent(rt: Runtime, c: Crypto, h: Heap, w: Struct, turns: seq<Turn>)
    requires Valid(h, w) && Standard(h.package) && OnlyCalls(turns)
    ensures var q := RunBoth(rt, c, WithClone(h, w), turns);
            && Snap(q.h, q.v) == Run(rt, c, Snap(h, w), Calls(turns, true))
            && Snap(q.h, q.w) == Run(rt, c, Uncached(Cloned(View(h, w))), Calls(turns, false))
  {
    CallsAreQuiet(rt, c, WithClone(h, w), turns);
    CloneIndependent(rt, c, h, w, turns);
    OwnCalls(rt, c, h.package, Snap(h, w), turns, true);
    OwnCalls(rt, c, h.package, Uncached(Cloned(View(h, w))), turns, false);
  }

  /** So whatever is called on the original, the clone renders what its own disciplined calls made of it. */
  lemma CloneRenders(rt: Runtime, c: Crypto, h: Heap, w: Struct, turns: seq<Turn>, seed: Seed)
    requires Valid(h, w) && Standard(h.package) && OnlyCalls(turns)
    requires Orderly(rt, c, Cloned(View(h, w)), Calls(turns, false), seed)
    requires NeverBlind(rt, c, Uncached(Cloned(View(h, w))), Calls(turns, false))
    ensures var q := RunBoth(rt, c, WithClone(h, w), turns);
            var (x, m) := Render(rt, Snap(q.h, q.w), seed);
            x.hash != NoHash ==> m == Build(rt, x.st)
  {
    CallsIndependent(rt, c, h, w, turns);
    RespondCorrect(rt, c, Cloned(View(h, w)), Calls(turns, false), seed);
  }

  // ---- The package-level headers ----

  lemma ExecTwo(rt: Runtime, h: Heap, w: Struct, op: Write, op': Write)
    ensures var (h1, w1) := (After(h, w, op), Moved(rt, h, w, op));
            Exec(rt, h, w, [op, op']) == (After(h1, w1, op'), Moved(rt, h1, w1, op'))
  {
    assert [op, op'][1..] == [op'];
    ExecOne(rt, After(h, w, op), Moved(rt, h, w, op), op');
  }

  lemma PredefinedMoves(rt: Runtime, c: Crypto, h: Heap, w: Struct, g: nat)
    requires g in h.package
    ensures Moves(rt, c, h, w, Predefined(g)).1.header == Some(g)
  {
    ExecTwo(rt, h, w, UseHeader(g, h.package[g]), ToPlain(View(h, w).(statusCode := h.package[g].code)));
  }

  lemma TwoTurns(rt: Runtime, c: Crypto, p: Pair, turns: seq<Turn>)
    requires |turns| == 2
    ensures RunBoth(rt, c, p, turns) == TurnStep(rt, c, TurnStep(rt, c, p, turns[0]), turns[1])
  {
    assert turns[..1][..0] == [] && turns[..1][0] == turns[0];
    assert RunBoth(rt, c, p, turns[..1]) == TurnStep(rt, c, p, turns[0]);
  }

  lemma PredefinedBoth(rt: Runtime, c: Crypto, p: Pair, g: nat)
    requires Good(p) && g in p.h.package
    ensures var q := TurnStep(rt, c, TurnStep(rt, c, p, Turn(true, Predefined(g))), Turn(false, Predefined(g)));
            Good(q) && q.h.package == p.h.package && q.v.header == q.w.header == Some(g)
  {
    var q := TurnStep(rt, c, p, Turn(true, Predefined(g)));
    TurnSpares(rt, c, p, Turn(true, Predefined(g)));
    TurnSpares(rt, c, q, Turn(false, Predefined(g)));
    PredefinedMoves(rt, c, p.h, p.v, g);
    PredefinedMoves(rt, c, q.h, q.w, g);
  }

  lemma EditLeaks(q: Pair, g: nat, hd: Header)
    requires Good(q) && q.v.header == q.w.header == Some(g)
    ensures g in q.h.package
    ensures View(After(q.h, q.w, ToHeader(InPlace(hd))), q.v) != View(q.h, q.v) <==> hd != q.h.package[g]
  {
    HeaderEditLeaksIff(q.h, q.w, q.v, hd);
  }

  /**
   * The condition on package-level headers is real. Once the original and the clone have made the same predefined
   * call, OK() say, an edit through the Header() of the clone changes the original, unless it changes nothing.
   */
  lemma PredefinedEditLeaksIff(rt: Runtime, c: Crypto, h: Heap, w: Struct, g: nat, hd: Header)
    requires Valid(h, w) && Standard(h.package) && g in h.package
    ensures var q := RunBoth(rt, c, WithClone(h, w), [Turn(true, Predefined(g)), Turn(false, Predefined(g))]);
            View(After(q.h, q.w, ToHeader(InPlace(hd))), q.v) != View(q.h, q.v) <==> hd != h.package[g]
  {
    var turns := [Turn(true, Predefined(g)), Turn(false, Predefined(g))];
    CloneCopies(h, w);
    PredefinedBoth(rt, c, WithClone(h, w), g);
    TwoTurns(rt, c, WithClone(h, w), turns);
    EditLeaks(RunBoth(rt, c, WithClone(h, w), turns), g, hd);
  }
}
