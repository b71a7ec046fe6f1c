/** All runs of the public calls: what they keep, and when Respond is right. */
module Runs {
  import opened Values
  import opened Library
  import opened Parts
  import opened Envelope
  import opened Outcome
  import opened RenderCache
  import opened Normalize
  import opened Signing

  /** One public call on a wrapper. */
  datatype Call =
    | Fluent(op: Op)
    | Normalise(draws: Draws)  // NormAll
    | Sign(config: Option<Config>, ignored: seq<Key>, now: Clock, seed: Seed, id: nat)  // ApplySignature
    | Check(config: Option<Config>, ignored: seq<Key>, now: Clock, seed: Seed)          // VerifySignature

  /** The seed of the render inside the call, if there is one. */
  function RenderSeed(x: Snapshot, call: Call): Option<Seed> {
    match call
    case Fluent(op) => if op.Respond? then Some(op.seed) else None
    case Normalise(_) => None
    case Sign(_, _, _, seed, _) => When(!IsError(x.st), seed)
    case Check(_, _, _, seed) => When(x.st.errors.None? && x.st.signature.Some?, seed)
  }

  /** The snapshot after the render inside the call. */
  function Mid(rt: Runtime, x: Snapshot, call: Call): Snapshot {
    var seed := RenderSeed(x, call);
    if seed.Some? then Render(rt, x, seed.value).0 else x
  }

  function StepCall(rt: Runtime, c: Crypto, x: Snapshot, call: Call): Snapshot {
    match call
    case Fluent(op) => Step(rt, x, op)
    case Normalise(d) => x.(st := NormAll(rt, x.st, d))  // nil entries are deleted where they are
    case Sign(config, ignored, now, seed, id) => Apply(rt, c, x, config, ignored, now, seed, id)
    case Check(config, ignored, now, seed) => Verify(rt, c, x, config, ignored, now, seed).0
  }

  function Run(rt: Runtime, c: Crypto, x: Snapshot, calls: seq<Call>): Snapshot {
    if calls == [] then x else StepCall(rt, c, Run(rt, c, x, calls[..|calls| - 1]), calls[|calls| - 1])
  }

  // ---- Status and header ----

  lemma RespondIsRender(rt: Runtime, x: Snapshot, op: Op)
    requires op.Respond?
    ensures Step(rt, x, op) == Render(rt, x, op.seed).0
  {
  }

  /** The render inside a call is a call of Respond. */
  lemma MidIsRespond(rt: Runtime, x: Snapshot, call: Call)
    requires RenderSeed(x, call).Some?
    ensures Mid(rt, x, call) == Step(rt, x, Respond(RenderSeed(x, call).value))
  {
    RespondIsRender(rt, x, Respond(RenderSeed(x, call).value));
  }

  lemma ConsistentMid(rt: Runtime, x: Snapshot, call: Call)
    requires Consistent(x.st)
    ensures Consistent(Mid(rt, x, call).st)
  {
    if RenderSeed(x, call).Some? {
      ConsistentKept(rt, x, Respond(RenderSeed(x, call).value));
      MidIsRespond(rt, x, call);
    }
  }

  lemma SignedStatus(rt: Runtime, c: Crypto, x: Snapshot, call: Call)
    requires call.Sign?
    ensures var y, z := Mid(rt, x, call).st, StepCall(rt, c, x, call).st;
            (z.statusCode == y.statusCode && z.header == y.header) || z.statusCode == HeaderCode(z.header)
  {
  }

  /** VerifySignature does no more to the wrapper than its render. */
  lemma CheckedIsMid(rt: Runtime, c: Crypto, x: Snapshot, call: Call)
    requires call.Check?
    ensures StepCall(rt, c, x, call) == Mid(rt, x, call)
  {
  }

  lemma ConsistentCall(rt: Runtime, c: Crypto, x: Snapshot, call: Call)
    requires Consistent(x.st)
    ensures Consistent(StepCall(rt, c, x, call).st)
  {
    match call
    case Fluent(op) => ConsistentKept(rt, x, op);
    case Normalise(d) => PassFields(rt, x.st, d);
    case Sign(_, _, _, _, _) => ConsistentMid(rt, x, call); SignedStatus(rt, c, x, call);
    case Check(_, _, _, _) => ConsistentMid(rt, x, call); CheckedIsMid(rt, c, x, call);
  }

  /** No run of public calls breaks the agreement of status and header. */
  lemma {:induction false} ConsistentRun(rt: Runtime, c: Crypto, x: Snapshot, calls: seq<Call>)
    requires Consistent(x.st)
    ensures Consistent(Run(rt, c, x, calls).st)
    decreases |calls|
  {
    if calls != [] {
      ConsistentRun(rt, c, x, calls[..|calls| - 1]);
      ConsistentCall(rt, c, Run(rt, c, x, calls[..|calls| - 1]), calls[|calls| - 1]);
    }
  }

  /** New starts with it: unset status, header 102. */
  lemma NewConsistent(rt: Runtime, c: Crypto, m: Meta, calls: seq<Call>)
    ensures Consistent(Run(rt, c, Uncached(NewState(m)), calls).st)
  {
    ConsistentRun(rt, c, Uncached(NewState(m)), calls);
  }

  lemma PendingMid(rt: Runtime, x: Snapshot, call: Call)
    requires !Pending(x.st)
    ensures !Pending(Mid(rt, x, call).st)
  {
    if RenderSeed(x, call).Some? {
      PendingKept(rt, x, Respond(RenderSeed(x, call).value));
      MidIsRespond(rt, x, call);
    }
  }

  lemma PendingCall(rt: Runtime, c: Crypto, x: Snapshot, call: Call)
    requires !Pending(x.st)
    ensures !Pending(StepCall(rt, c, x, call).st)
  {
    match call
    case Fluent(op) => PendingKept(rt, x, op);
    case Normalise(d) => PassFields(rt, x.st, d);
    case Sign(_, _, _, _, _) => PendingMid(rt, x, call); SignedStatus(rt, c, x, call);
    case Check(_, _, _, _) => PendingMid(rt, x, call); CheckedIsMid(rt, c, x, call);
  }

  lemma {:induction false} PendingRun(rt: Runtime, c: Crypto, x: Snapshot, calls: seq<Call>)
    requires !Pending(x.st)
    ensures !Pending(Run(rt, c, x, calls).st)
    decreases |calls|
  {
    if calls != [] {
      PendingRun(rt, c, x, calls[..|calls| - 1]);
      PendingCall(rt, c, Run(rt, c, x, calls[..|calls| - 1]), calls[|calls| - 1]);
    }
  }

  // ---- The cache, whatever the calls ----

  lemma MidIsRender(rt: Runtime, x: Snapshot, seed: Seed)
    ensures Mid(rt, x, Fluent(Respond(seed))) == Render(rt, x, seed).0
  {
  }

  lemma FluentIsStep(rt: Runtime, c: Crypto, x: Snapshot, op: Op)
    ensures StepCall(rt, c, x, Fluent(op)) == Step(rt, x, op)
  {
  }

  lemma CallIsRender(rt: Runtime, c: Crypto, x: Snapshot, seed: Seed)
    ensures StepCall(rt, c, x, Fluent(Respond(seed))) == Render(rt, x, seed).0
  {
    FluentIsStep(rt, c, x, Respond(seed));
    RespondIsRender(rt, x, Respond(seed));
  }

  lemma RespondIsMid(rt: Runtime, c: Crypto, x: Snapshot, seed: Seed)
    ensures StepCall(rt, c, x, Fluent(Respond(seed))) == Mid(rt, x, Fluent(Respond(seed)))
  {
    MidIsRender(rt, x, seed);
    CallIsRender(rt, c, x, seed);
  }

  lemma FluentCache(rt: Runtime, c: Crypto, x: Snapshot, call: Call)
    requires call.Fluent?
    ensures KeptOrEmptied(Mid(rt, x, call), StepCall(rt, c, x, call))
  {
    if call.op.Respond? {
      RespondIsMid(rt, c, x, call.op.seed);
    } else {
      CacheKeptOrReset(rt, x, call.op);
    }
  }

  lemma SignedCache(rt: Runtime, c: Crypto, x: Snapshot, call: Call)
    requires call.Sign?
    ensures KeptOrEmptied(Mid(rt, x, call), StepCall(rt, c, x, call))
  {
  }

  /** After its render a call keeps the cache or empties it. */
  lemma CacheKeptOrEmptied(rt: Runtime, c: Crypto, x: Snapshot, call: Call)
    ensures KeptOrEmptied(Mid(rt, x, call), StepCall(rt, c, x, call))
  {
    match call
    case Fluent(_) => FluentCache(rt, c, x, call);
    case Normalise(_) =>
    case Sign(_, _, _, _, _) => SignedCache(rt, c, x, call);
    case Check(_, _, _, _) => CheckedIsMid(rt, c, x, call);
  }

  lemma FaithfulMid(rt: Runtime, x: Snapshot, call: Call)
    requires Faithful(rt, x)
    ensures Faithful(rt, Mid(rt, x, call))
  {
    if RenderSeed(x, call).Some? {
      FaithfulRender(rt, x, RenderSeed(x, call).value);
    }
  }

  lemma FaithfulCall(rt: Runtime, c: Crypto, x: Snapshot, call: Call)
    requires Faithful(rt, x)
    ensures Faithful(rt, StepCall(rt, c, x, call))
  {
    FaithfulMid(rt, x, call);
    CacheKeptOrEmptied(rt, c, x, call);
    FaithfulStays(rt, Mid(rt, x, call), StepCall(rt, c, x, call));
  }

  /** In every run the cached map was built in some state with the cached key. */
  lemma {:induction false} FaithfulRun(rt: Runtime, c: Crypto, x: Snapshot, calls: seq<Call>)
    requires Faithful(rt, x)
    ensures Faithful(rt, Run(rt, c, x, calls))
    decreases |calls|
  {
    if calls != [] {
      FaithfulRun(rt, c, x, calls[..|calls| - 1]);
      FaithfulCall(rt, c, Run(rt, c, x, calls[..|calls| - 1]), calls[|calls| - 1]);
    }
  }

  lemma AgreesAfterRender(rt: Runtime, x: Snapshot, seed: Seed)
    requires Faithful(rt, x)
    ensures var (y, m) := Render(rt, x, seed);
            y.hash != NoHash ==> y.cached.Some? && AgreesOnCovered(rt, m, y.cached.value, y.st)
  {
    var y := Render(rt, x, seed).0;
    var s := Rendering(rt, x.st, seed);
    if Hit(rt, x, s) {
      HitKeeps(rt, x, seed);
      if x.hash != NoHash {
        var t :| BuiltFrom(rt, x, t);
        BuiltStays(rt, x, y, t);
        SameKeyCovers(rt, y.cached.value, t, s);
      }
    } else {
      MissBuilds(rt, x, seed);
      TakenReads(rt, s);
      if CacheKey(rt, s) != NoHash { SameKeyCovers(rt, Taken(rt, s), s, s); }
    }
  }

  /**
   * For every run from an empty cache: whenever the wrapper can be hashed, the map Respond returns agrees with
   * a fresh build of the current state on status_code, path, message, total and pagination, on header and meta up to
   * absent against empty, and on the value of data up to equal digests. Its debug map and custom fields are those that
   * the references of the cached map lead to; HitExact says when that is what a fresh build prints.
   */
  lemma RespondPartiallyCorrect(rt: Runtime, c: Crypto, s0: State, calls: seq<Call>, seed: Seed)
    ensures var (x, m) := Render(rt, Run(rt, c, Uncached(s0), calls), seed);
            x.hash != NoHash ==> x.cached.Some? && AgreesOnCovered(rt, m, x.cached.value, x.st)
  {
    var x0 := Run(rt, c, Uncached(s0), calls);
    FaithfulRun(rt, c, Uncached(s0), calls);
    AgreesAfterRender(rt, x0, seed);
  }

  // ---- The cache under the discipline ----

  /** The call goes by way of y, where it has rendered, to z. */
  predicate DisciplinedCall(y: Snapshot, z: Snapshot) {
    Intact(y) && (z.cached.None? || (UncoveredOf(z.st) == UncoveredOf(y.st) && Undisturbed(z.cached.value)))
  }

  /**
   * The discipline: no map that the cached map refers to is given up after it was written, and, after its render,
   * a call that changes uncovered state ends with an empty cache, as the calls ending in resetCache and Reset do.
   */
  predicate Disciplined(rt: Runtime, c: Crypto, x: Snapshot, calls: seq<Call>) {
    calls == [] ||
    (var y := Run(rt, c, x, calls[..|calls| - 1]);
     && Disciplined(rt, c, x, calls[..|calls| - 1])
     && DisciplinedCall(Mid(rt, y, calls[|calls| - 1]), StepCall(rt, c, y, calls[|calls| - 1])))
  }

  /** The render inside the call, if there is one, does not leave a written map behind. */
  predicate RenderKeeps(x: Snapshot, call: Call) {
    if RenderSeed(x, call).Some? then Unwritten(x, AdjustGivesUp(x.st)) else Intact(x)
  }

  /** Calls that keep the discipline. */
  predicate KeepsDiscipline(rt: Runtime, c: Crypto, x: Snapshot, call: Call) {
    match call
    case Fluent(op) => op.Respond? || Resetting(op) || (CoveredCall(x.st, op) && Unwritten(x, GivesUp(x.st, op)))
    case Normalise(_) => x.st.header.Some? && x.st.meta.Some?
    case Sign(config, ignored, now, seed, _) => IsError(x.st) || Signs(rt, c, x, config, ignored, now, seed)
    case Check(_, _, _, _) => true
  }

  lemma SignedOrSkipped(rt: Runtime, c: Crypto, x: Snapshot, call: Call)
    requires call.Sign? && KeepsDiscipline(rt, c, x, call)
    ensures StepCall(rt, c, x, call).cached.None? || StepCall(rt, c, x, call) == Mid(rt, x, call)
  {
  }

  lemma IntactRender(rt: Runtime, x: Snapshot, seed: Seed)
    requires Unwritten(x, AdjustGivesUp(x.st))
    ensures Intact(Render(rt, x, seed).0)
  {
    if Hits(rt, x, seed) {
      HitKeeps(rt, x, seed);
    } else {
      MissBuilds(rt, x, seed);
      TakenReads(rt, Rendering(rt, x.st, seed));
    }
  }

  lemma IntactMid(rt: Runtime, x: Snapshot, call: Call)
    requires RenderKeeps(x, call)
    ensures Intact(Mid(rt, x, call))
  {
    if RenderSeed(x, call).Some? {
      IntactRender(rt, x, RenderSeed(x, call).value);
    }
  }

  lemma NormKeepsRest(rt: Runtime, c: Crypto, x: Snapshot, d: Draws)
    requires x.st.header.Some? && x.st.meta.Some?
    ensures var z := StepCall(rt, c, x, Normalise(d));
            z.cached == x.cached && UncoveredOf(z.st) == UncoveredOf(x.st)
  {
    PassFields(rt, x.st, d);
  }

  lemma DisciplinedCalls(rt: Runtime, c: Crypto, x: Snapshot, call: Call)
    requires KeepsDiscipline(rt, c, x, call) && RenderKeeps(x, call)
    ensures DisciplinedCall(Mid(rt, x, call), StepCall(rt, c, x, call))
  {
    IntactMid(rt, x, call);
    match call
    case Fluent(op) =>
      if op.Respond? {
        RespondIsMid(rt, c, x, op.seed);
      } else {
        FluentIsStep(rt, c, x, op);
        DisciplinedOps(rt, x, op);
      }
    case Normalise(d) => NormKeepsRest(rt, c, x, d);
    case Sign(_, _, _, _, _) => SignedOrSkipped(rt, c, x, call);
    case Check(_, _, _, _) => CheckedIsMid(rt, c, x, call);
  }

  /** Every state the run goes through, those between a render and the rest of its call included. */
  function Trace(rt: Runtime, c: Crypto, x: Snapshot, calls: seq<Call>): (states: seq<State>)
    ensures |states| == 1 + 2 * |calls|
  {
    if calls == [] then [x.st]
    else
      var y, call := Run(rt, c, x, calls[..|calls| - 1]), calls[|calls| - 1];
      Trace(rt, c, x, calls[..|calls| - 1]) + [Mid(rt, y, call).st] + [StepCall(rt, c, y, call).st]
  }

  /** hashy tells apart whatever payloads, debug maps and custom fields differ among the states. */
  ghost predicate AllToldApart(rt: Runtime, states: seq<State>) {
    forall i, j :: 0 <= i < |states| && 0 <= j < |states| ==> ToldApart(rt, states[i], states[j])
  }

  lemma RenderedState(rt: Runtime, y: Snapshot, seed: Seed)
    ensures Render(rt, y, seed).0.st == Rendering(rt, y.st, seed)
  {
  }

  lemma CoherentMid(rt: Runtime, x: Snapshot, call: Call, past: seq<State>)
    requires Coherent(rt, x, past) && Intact(Mid(rt, x, call)) && AllToldApart(rt, past + [Mid(rt, x, call).st])
    ensures Coherent(rt, Mid(rt, x, call), past + [Mid(rt, x, call).st])
  {
    var all := past + [Mid(rt, x, call).st];
    if RenderSeed(x, call).Some? {
      var seed := RenderSeed(x, call).value;
      RenderedState(rt, x, seed);
      forall i | 0 <= i < |past|
        ensures ToldApart(rt, past[i], Rendering(rt, x.st, seed))
      {
        assert past[i] == all[i] && Mid(rt, x, call).st == all[|past|];
      }
      CoherentRender(rt, x, seed, past);
    } else {
      CoherentEdit(rt, x, x, past);
    }
  }

  /** After its render a call makes no failure pending. */
  lemma PendingAfterMid(rt: Runtime, c: Crypto, x: Snapshot, call: Call)
    requires !Pending(Mid(rt, x, call).st)
    ensures !Pending(StepCall(rt, c, x, call).st)
  {
    match call
    case Fluent(op) =>
      if op.Respond? {
        RespondIsMid(rt, c, x, op.seed);
      } else {
        FluentIsStep(rt, c, x, op);
        PendingKept(rt, x, op);
      }
    case Normalise(d) => PassFields(rt, x.st, d);
    case Sign(_, _, _, _, _) => SignedStatus(rt, c, x, call);
    case Check(_, _, _, _) => CheckedIsMid(rt, c, x, call);
  }

  lemma PrefixToldApart(rt: Runtime, states: seq<State>, n: nat)
    requires n <= |states| && AllToldApart(rt, states)
    ensures AllToldApart(rt, states[..n])
  {
  }

  lemma {:induction false} CoherentRun(rt: Runtime, c: Crypto, x: Snapshot, calls: seq<Call>)
    requires Coherent(rt, x, [x.st]) && Disciplined(rt, c, x, calls)
    requires AllToldApart(rt, Trace(rt, c, x, calls))
    ensures Coherent(rt, Run(rt, c, x, calls), Trace(rt, c, x, calls))
    decreases |calls|
  {
    if calls != [] {
      var y, call := Run(rt, c, x, calls[..|calls| - 1]), calls[|calls| - 1];
      var past, whole := Trace(rt, c, x, calls[..|calls| - 1]), Trace(rt, c, x, calls);
      PrefixToldApart(rt, whole, |past|);
      PrefixToldApart(rt, whole, |past| + 1);
      assert whole[..|past|] == past && whole[..|past| + 1] == past + [Mid(rt, y, call).st];
      CoherentRun(rt, c, x, calls[..|calls| - 1]);
      CoherentMid(rt, y, call, past);
      if !Pending(Mid(rt, y, call).st) { PendingAfterMid(rt, c, y, call); }
      CacheKeptOrEmptied(rt, c, y, call);
      CoherentEdit(rt, Mid(rt, y, call), StepCall(rt, c, y, call), past + [Mid(rt, y, call).st]);
    }
  }

  lemma RespondStates(rt: Runtime, c: Crypto, y: Snapshot, seed: Seed)
    ensures Mid(rt, y, Fluent(Respond(seed))).st == Rendering(rt, y.st, seed)
    ensures StepCall(rt, c, y, Fluent(Respond(seed))).st == Rendering(rt, y.st, seed)
  {
    MidIsRender(rt, y, seed);
    CallIsRender(rt, c, y, seed);
    RenderedState(rt, y, seed);
  }

  lemma TraceOfRender(rt: Runtime, c: Crypto, x: Snapshot, calls: seq<Call>, seed: Seed)
    ensures var s := Rendering(rt, Run(rt, c, x, calls).st, seed);
            Trace(rt, c, x, calls + [Fluent(Respond(seed))]) == Trace(rt, c, x, calls) + [s, s]
  {
    var more := calls + [Fluent(Respond(seed))];
    assert more[..|more| - 1] == calls && more[|more| - 1] == Fluent(Respond(seed));
    RespondStates(rt, c, Run(rt, c, x, calls), seed);
  }

  lemma ToldApartFromLast(rt: Runtime, past: seq<State>, s: State)
    requires AllToldApart(rt, past + [s, s])
    ensures AllToldApart(rt, past)
    ensures forall i :: 0 <= i < |past| ==> ToldApart(rt, past[i], s)
  {
    var all := past + [s, s];
    forall i, j | 0 <= i < |past| && 0 <= j < |past|
      ensures ToldApart(rt, past[i], past[j])
    {
      assert all[i] == past[i] && all[j] == past[j];
    }
    forall i | 0 <= i < |past|
      ensures ToldApart(rt, past[i], s)
    {
      assert all[i] == past[i] && all[|past|] == s;
    }
  }

  /** The run and a last Respond, which the discipline and the digests have to cover as well. */
  ghost predicate Orderly(rt: Runtime, c: Crypto, s0: State, calls: seq<Call>, seed: Seed) {
    var all := calls + [Fluent(Respond(seed))];
    Disciplined(rt, c, Uncached(s0), all) && AllToldApart(rt, Trace(rt, c, Uncached(s0), all))
  }

  lemma OrderlyRender(rt: Runtime, c: Crypto, s0: State, calls: seq<Call>, seed: Seed)
    requires Orderly(rt, c, s0, calls, seed)
    ensures var x0, past := Run(rt, c, Uncached(s0), calls), Trace(rt, c, Uncached(s0), calls);
            && Coherent(rt, x0, past) && Intact(Render(rt, x0, seed).0)
            && (forall i :: 0 <= i < |past| ==> ToldApart(rt, past[i], Rendering(rt, x0.st, seed)))
  {
    var x0, past := Run(rt, c, Uncached(s0), calls), Trace(rt, c, Uncached(s0), calls);
    var all := calls + [Fluent(Respond(seed))];
    assert all[..|all| - 1] == calls && all[|all| - 1] == Fluent(Respond(seed));
    MidIsRender(rt, x0, seed);
    TraceOfRender(rt, c, Uncached(s0), calls, seed);
    ToldApartFromLast(rt, past, Rendering(rt, x0.st, seed));
    CoherentRun(rt, c, Uncached(s0), calls);
  }

  /**
   * For every disciplined run from an empty cache: whenever the wrapper can be hashed, and hashy tells the run's
   * payloads, debug maps and custom fields apart, Respond returns exactly what build prints for the adjusted current
   * state, unless it hits a map that prints a failure without its issue. Then it is wrong.
   */
  lemma RespondRightIff(rt: Runtime, c: Crypto, s0: State, calls: seq<Call>, seed: Seed)
    requires Orderly(rt, c, s0, calls, seed)
    ensures var x0 := Run(rt, c, Uncached(s0), calls);
            var (x, m) := Render(rt, x0, seed);
            x.hash != NoHash ==> (m == Build(rt, x.st) <==> !(Hits(rt, x0, seed) && HoldsOutdated(x0)))
  {
    OrderlyRender(rt, c, s0, calls, seed);
    CoherentRender(rt, Run(rt, c, Uncached(s0), calls), seed, Trace(rt, c, Uncached(s0), calls));
  }

  /** No render of the run starts blind: with a failure pending and neither error nor issue. */
  predicate NeverBlind(rt: Runtime, c: Crypto, x: Snapshot, calls: seq<Call>) {
    calls == [] ||
    (var y := Run(rt, c, x, calls[..|calls| - 1]);
     && NeverBlind(rt, c, x, calls[..|calls| - 1])
     && (RenderSeed(y, calls[|calls| - 1]).Some? ==> !Blind(y.st)))
  }

  lemma {:induction false} NotPendingNeverBlind(rt: Runtime, c: Crypto, x: Snapshot, calls: seq<Call>)
    requires !Pending(x.st)
    ensures NeverBlind(rt, c, x, calls)
    decreases |calls|
  {
    if calls != [] {
      NotPendingNeverBlind(rt, c, x, calls[..|calls| - 1]);
      PendingRun(rt, c, x, calls[..|calls| - 1]);
    }
  }

  lemma FreshMid(rt: Runtime, x: Snapshot, call: Call)
    requires !HoldsOutdated(x) && (RenderSeed(x, call).Some? ==> !Blind(x.st))
    ensures !HoldsOutdated(Mid(rt, x, call))
  {
    if RenderSeed(x, call).Some? {
      var seed := RenderSeed(x, call).value;
      var s := Rendering(rt, x.st, seed);
      if Hits(rt, x, seed) {
        HitKeeps(rt, x, seed);
      } else {
        MissBuilds(rt, x, seed);
        OutdatedIffBlind(rt, x.st, seed);
        TakenReads(rt, s);
        HoldsOutdatedIff(rt, JustRendered(rt, s), s);
      }
    }
  }

  lemma {:induction false} NeverBlindNeverOutdated(rt: Runtime, c: Crypto, x: Snapshot, calls: seq<Call>)
    requires NeverBlind(rt, c, x, calls) && !HoldsOutdated(x)
    ensures !HoldsOutdated(Run(rt, c, x, calls))
    decreases |calls|
  {
    if calls != [] {
      var y, call := Run(rt, c, x, calls[..|calls| - 1]), calls[|calls| - 1];
      NeverBlindNeverOutdated(rt, c, x, calls[..|calls| - 1]);
      FreshMid(rt, y, call);
      CacheKeptOrEmptied(rt, c, y, call);
    }
  }

  /**
   * So in a disciplined run none of whose renders starts blind, Respond is always right. Runs that start with no
   * failure pending are of that kind, and parsed envelopes that carry an issue.
   */
  lemma RespondCorrect(rt: Runtime, c: Crypto, s0: State, calls: seq<Call>, seed: Seed)
    requires Orderly(rt, c, s0, calls, seed) && NeverBlind(rt, c, Uncached(s0), calls)
    ensures var (x, m) := Render(rt, Run(rt, c, Uncached(s0), calls), seed);
            x.hash != NoHash ==> m == Build(rt, x.st)
  {
    RespondRightIff(rt, c, s0, calls, seed);
    NeverBlindNeverOutdated(rt, c, Uncached(s0), calls);
  }

  /** A blind render is never right a second time: Respond right after it hits its map and is wrong. */
  lemma BlindRenderHarms(rt: Runtime, c: Crypto, s0: State, calls: seq<Call>, seed: Seed, seed': Seed)
    requires var x0 := Run(rt, c, Uncached(s0), calls); Blind(x0.st) && Hashable(x0.st) && !Hits(rt, x0, seed)
    ensures var x := Run(rt, c, Uncached(s0), calls + [Fluent(Respond(seed))]);
            var (y, m) := Render(rt, x, seed');
            m != Build(rt, y.st)
  {
    var x0 := Run(rt, c, Uncached(s0), calls);
    var all := calls + [Fluent(Respond(seed))];
    assert all[..|all| - 1] == calls && all[|all| - 1] == Fluent(Respond(seed));
    CallIsRender(rt, c, x0, seed);
    MissBuilds(rt, x0, seed);
    MissBuilds(rt, Uncached(x0.st), seed);
    SecondRenderIff(rt, x0.st, seed, seed');
  }

  /** So the signing theorems apply after every such run. */
  lemma UpToDateAfterRun(rt: Runtime, c: Crypto, s0: State, calls: seq<Call>, seed: Seed)
    requires Orderly(rt, c, s0, calls, seed) && NeverBlind(rt, c, Uncached(s0), calls)
    requires Render(rt, Run(rt, c, Uncached(s0), calls), seed).0.hash != NoHash
    ensures UpToDate(rt, Run(rt, c, Uncached(s0), calls), seed)
  {
    RespondCorrect(rt, c, s0, calls, seed);
  }

  // ---- What cannot be hashed ----

  ghost predicate NoneHashable(states: seq<State>) {
    forall i :: 0 <= i < |states| ==> !Hashable(states[i])
  }

  /** No call of the run empties the cache. */
  predicate NeverEmptied(rt: Runtime, c: Crypto, x: Snapshot, calls: seq<Call>) {
    calls == [] ||
    (&& NeverEmptied(rt, c, x, calls[..|calls| - 1])
     && Run(rt, c, x, calls).cached.Some?)
  }

  lemma FrozenMid(rt: Runtime, x: Snapshot, call: Call)
    requires x.cached.Some? && x.hash == NoHash && !Hashable(Mid(rt, x, call).st)
    ensures Mid(rt, x, call).cached.Some? && KeptOrEmptied(x, Mid(rt, x, call))
  {
    if RenderSeed(x, call).Some? {
      var seed := RenderSeed(x, call).value;
      RenderedState(rt, x, seed);
      HitKeeps(rt, x, seed);
    }
  }

  lemma {:induction false} StaysFrozen(rt: Runtime, c: Crypto, x: Snapshot, calls: seq<Call>)
    requires x.cached.Some? && x.hash == NoHash
    requires NoneHashable(Trace(rt, c, x, calls)) && NeverEmptied(rt, c, x, calls)
    ensures Run(rt, c, x, calls).cached.Some? && KeptOrEmptied(x, Run(rt, c, x, calls))
    decreases |calls|
  {
    if calls != [] {
      var y, call := Run(rt, c, x, calls[..|calls| - 1]), calls[|calls| - 1];
      var past, whole := Trace(rt, c, x, calls[..|calls| - 1]), Trace(rt, c, x, calls);
      forall i | 0 <= i < |past|
        ensures !Hashable(past[i])
      {
        assert whole[i] == past[i];
      }
      StaysFrozen(rt, c, x, calls[..|calls| - 1]);
      assert Mid(rt, y, call).st == whole[|past|];
      FrozenMid(rt, y, call);
      CacheKeptOrEmptied(rt, c, y, call);
    }
  }

  lemma {:induction false} FirstState(rt: Runtime, c: Crypto, x: Snapshot, calls: seq<Call>)
    ensures Trace(rt, c, x, calls)[0] == x.st
    decreases |calls|
  {
    if calls != [] {
      FirstState(rt, c, x, calls[..|calls| - 1]);
    }
  }

  lemma FrozenReads(rt: Runtime, x: Snapshot, z: Snapshot, seed: Seed)
    requires BuiltFrom(rt, x, x.st) && x.hash == NoHash && z.cached.Some? && KeptOrEmptied(x, z)
    requires !Hashable(Rendering(rt, z.st, seed))
    ensures var (y, n) := Render(rt, z, seed);
            && y.cached.Some? && y.cached.value.frozen == x.cached.value.frozen && n == Read(y.cached.value, y.st)
            && (n == Build(rt, y.st) <==>
                && (forall k :: k !in REFERRING ==> Cell(rt, x.st, k) == Cell(rt, y.st, k))
                && MetaFixed(rt, x.st.meta) == MetaFixed(rt, y.st.meta)
                && ReferencesRight(y.cached.value, x.st, y.st))
  {
    var y := Render(rt, z, seed).0;
    HitKeeps(rt, z, seed);
    AnyHitReads(rt, y.cached.value, x.st, y.st);
  }

  /**
   * The condition on hashing is real. While hashy refuses every state the run goes through, be it for the payload, the
   * debug map or the custom fields, the key is the empty text and Respond returns the first map, read as its references
   * lead. That is right exactly when no cell printed by value has changed and the references lead to what a fresh
   * build prints: an entry written into a debug map that was not empty at the first render is seen.
   */
  lemma UnhashableFreezes(rt: Runtime, c: Crypto, s0: State, seed: Seed, calls: seq<Call>, seed': Seed)
    requires var x := Render(rt, Uncached(s0), seed).0;
             NoneHashable(Trace(rt, c, x, calls + [Fluent(Respond(seed'))])) && NeverEmptied(rt, c, x, calls)
    ensures var (x, m) := Render(rt, Uncached(s0), seed);
            var (y, n) := Render(rt, Run(rt, c, x, calls), seed');
            && y.cached.Some? && y.cached.value.frozen == m && n == Read(y.cached.value, y.st)
            && (n == Build(rt, y.st) <==>
                && (forall k :: k !in REFERRING ==> Cell(rt, x.st, k) == Cell(rt, y.st, k))
                && MetaFixed(rt, x.st.meta) == MetaFixed(rt, y.st.meta)
                && ReferencesRight(y.cached.value, x.st, y.st))
  {
    var x := Render(rt, Uncached(s0), seed).0;
    var past, z := Trace(rt, c, x, calls), Run(rt, c, x, calls);
    var s := Rendering(rt, z.st, seed');
    TraceOfRender(rt, c, x, calls, seed');
    forall i | 0 <= i < |past|
      ensures !Hashable(past[i])
    {
      assert (past + [s, s])[i] == past[i];
    }
    FirstState(rt, c, x, calls);
    MissBuilds(rt, Uncached(s0), seed);
    TakenReads(rt, x.st);
    StaysFrozen(rt, c, x, calls);
    assert (past + [s, s])[|past|] == s;
    FrozenReads(rt, x, z, seed');
  }
}
