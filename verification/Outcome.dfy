/** Status, header, error and issue: what every run keeps and what autoAdjust guarantees. */
module Outcome {
  import opened Values
  import opened Library
  import opened Parts
  import opened ErrorChain
  import opened Envelope

  /** Status and header agree, or the status is still unset and the header neither a success nor a failure. */
  predicate Consistent(s: State) {
    || s.statusCode == HeaderCode(s.header)
    || (s.statusCode <= 0 && !IsFailure(HeaderCode(s.header)) && !IsSuccess(HeaderCode(s.header)))
  }

  /** autoAdjust has nothing left to do. */
  predicate Settled(s: State) {
    && (s.errors.Some? ==> s.issue.Some? && !IsSuccess(s.statusCode))
    && (IsFailure(s.statusCode) ==> s.errors.Some?)
  }

  /**
   * After autoAdjust a 4xx or 5xx status comes with an error and an issue, and an error never with 2xx. Errors and
   * issues that were there stay, and the status moves only from 2xx to 500.
   */
  lemma AdjustEffects(rt: Runtime, s: State, seed: Seed)
    ensures var t := Adjust(rt, s, seed);
            && Settled(t)
            && (s.errors.Some? ==> t.errors == s.errors)
            && (s.issue.Some? ==> t.issue == s.issue)
            && (t.statusCode != s.statusCode <==> s.errors.Some? && IsSuccess(s.statusCode))
            && (t.statusCode != s.statusCode ==> t.statusCode == 500 == HeaderCode(t.header))
            && (t.statusCode == s.statusCode ==> t.header == s.header)
            && (Settled(s) <==> t == s)
  {
  }

  /** A failure without an error gets one that reads as the message, or as the standard text if the message is blank. */
  lemma AdjustMakesError(rt: Runtime, s: State, seed: Seed)
    ensures var t := Adjust(rt, s, seed);
            if 400 <= s.statusCode <= 599 && s.errors.None?
            then
              && t.errors.Some? && t.errors.value.Underlying? && t.errors.value.id == seed.errId
              && (!IsEmpty(s.message) ==> Message(t.errors.value) == s.message)
              && (IsEmpty(s.message) ==> Message(t.errors.value) == rt.noMessage(s.statusCode))
            else t.errors == s.errors
  {
  }

  /** The issue has this message of the error: the text of the first error on its chain that wraps no other. */
  ghost predicate WordsOf(e: Err, text: string) {
    exists i: nat :: UnwrapsTo(Chain(Some(e)), i) && text == Message(Chain(Some(e))[i].value)
  }

  lemma InnerMostWords(e: Err)
    ensures WordsOf(e, Message(InnerMost(e)))
  {
    var i := InnerMostIs(e);
    assert UnwrapsTo(Chain(Some(e)), i);
  }

  /** An error without an issue gets one, and nothing else does. */
  lemma AdjustMakesIssue(rt: Runtime, s: State, seed: Seed)
    ensures var t := Adjust(rt, s, seed);
            if t.errors.Some? && s.issue.None?
            then
              && t.issue.Some? && t.issue.value.id == seed.issueId && t.issue.value.fingerprint == seed.fingerprint
              && WordsOf(t.errors.value, t.issue.value.message)
            else t.issue == s.issue
  {
    var t := Adjust(rt, s, seed);
    if t.errors.Some? { InnerMostWords(t.errors.value); }
  }

  /** Only a success with an error is overridden, and a debug entry says so; the rest of the state is left alone. */
  lemma AdjustOverrides(rt: Runtime, s: State, seed: Seed)
    ensures var t := Adjust(rt, s, seed);
            && t == s.(errors := t.errors, issue := t.issue, statusCode := t.statusCode, header := t.header,
                       debug := t.debug)
            && if s.errors.Some? && 200 <= s.statusCode <= 299
               then
                 && t.statusCode == 500 && t.header == Some(Header(500, "Internal Server Error", "Server Error", ""))
                 && t.debug == s.debug[KStatusOverride := Str(rt.overrideNote(s.statusCode))]
               else t.statusCode == s.statusCode && t.header == s.header && t.debug == s.debug
  {
  }

  /** The state that is rendered: an unset status is read from the header, after the adjustment. */
  lemma RenderingReads(rt: Runtime, s: State, seed: Seed)
    ensures var a, t := Adjust(rt, s, seed), Rendering(rt, s, seed);
            && t == a.(statusCode := t.statusCode)
            && t.statusCode == if a.statusCode <= 0 && a.header.Some? then a.header.value.code else a.statusCode
  {
  }

  lemma AdjustConsistent(rt: Runtime, x: Snapshot, op: Op)
    requires Consistent(x.st) && (op.AutoAdjust? || op.Respond?)
    ensures Consistent(Step(rt, x, op).st)
  {
    AdjustEffects(rt, x.st, op.seed);
  }

  lemma StatusSet(rt: Runtime, x: Snapshot, op: Op)
    requires Consistent(x.st) && (op.WithStatusCode? || op.WithHeader? || op.ReadStatusCode? || op.Reset?)
    ensures Consistent(Step(rt, x, op).st)
  {
  }

  lemma StatusUntouched(rt: Runtime, x: Snapshot, op: Op)
    requires !(op.WithStatusCode? || op.WithHeader? || op.ReadStatusCode? || op.Reset? || op.AutoAdjust? || op.Respond?)
    ensures Step(rt, x, op).st.statusCode == x.st.statusCode && Step(rt, x, op).st.header == x.st.header
  {
  }

  lemma ConsistentKept(rt: Runtime, x: Snapshot, op: Op)
    requires Consistent(x.st)
    ensures Consistent(Step(rt, x, op).st)
  {
    if op.AutoAdjust? || op.Respond? {
      AdjustConsistent(rt, x, op);
    } else if op.WithStatusCode? || op.WithHeader? || op.ReadStatusCode? || op.Reset? {
      StatusSet(rt, x, op);
    } else {
      StatusUntouched(rt, x, op);
    }
  }

  /** The header holds a failure code that the unset status has not taken yet. */
  predicate Pending(s: State) {
    s.statusCode <= 0 && IsFailure(HeaderCode(s.header))
  }

  lemma RenderingNotPending(rt: Runtime, s: State, seed: Seed)
    requires !Pending(s)
    ensures !Pending(Adjust(rt, s, seed)) && !Pending(Rendering(rt, s, seed))
  {
    AdjustEffects(rt, s, seed);
  }

  lemma StatusTaken(rt: Runtime, x: Snapshot, op: Op)
    requires !Pending(x.st) && (op.WithStatusCode? || op.WithHeader? || op.ReadStatusCode? || op.Reset?)
    ensures !Pending(Step(rt, x, op).st)
  {
  }

  /** No call makes a failure pending; only a parsed or hand-filled envelope starts that way. */
  lemma PendingKept(rt: Runtime, x: Snapshot, op: Op)
    requires !Pending(x.st)
    ensures !Pending(Step(rt, x, op).st)
  {
    if op.AutoAdjust? || op.Respond? {
      RenderingNotPending(rt, x.st, op.seed);
    } else if op.WithStatusCode? || op.WithHeader? || op.ReadStatusCode? || op.Reset? {
      StatusTaken(rt, x, op);
    } else {
      StatusUntouched(rt, x, op);
    }
  }

  lemma AdjustIdempotent(rt: Runtime, s: State, seed: Seed, seed': Seed)
    ensures Adjust(rt, Adjust(rt, s, seed), seed') == Adjust(rt, s, seed)
  {
    AdjustEffects(rt, s, seed);
    AdjustEffects(rt, Adjust(rt, s, seed), seed');
  }

  /** The header still decides the status, and decides it against the error field. */
  predicate HeaderContradicts(s: State) {
    && s.statusCode <= 0 && s.header.Some?
    && (if s.errors.None? then IsFailure(s.header.value.code) else IsSuccess(s.header.value.code))
  }

  /**
   * The state a render works on (autoAdjust, then the lazy StatusCode) is reached in one pass exactly when the
   * header does not contradict the error field of an unset status; parsed envelopes can be of that kind.
   */
  lemma RenderingIdempotentIff(rt: Runtime, s: State, seed: Seed, seed': Seed)
    ensures Rendering(rt, Rendering(rt, s, seed), seed') == Rendering(rt, s, seed) <==> !HeaderContradicts(s)
  {
    var a := Adjust(rt, s, seed);
    var t := ResolveStatus(a);
    AdjustEffects(rt, s, seed);
    AdjustEffects(rt, t, seed');
    assert ResolveStatus(t) == t;
    if Settled(t) {
      assert Rendering(rt, t, seed') == t;
    } else {
      assert t != a;
      assert Adjust(rt, t, seed') != t;
      assert Rendering(rt, t, seed').errors.Some?;
    }
  }

  /** An error has its issue, and a failure its error. */
  predicate Answered(s: State) {
    (s.errors.Some? ==> s.issue.Some?) && (IsFailure(s.statusCode) ==> s.errors.Some?)
  }

  /** A render leaves errors and issues complete, unless a failure was pending. */
  lemma RenderingAnswers(rt: Runtime, s: State, seed: Seed)
    requires !Pending(s)
    ensures Answered(Rendering(rt, s, seed))
  {
  }

  lemma RenderingSettles(rt: Runtime, s: State, seed: Seed)
    requires Consistent(s)
    ensures Settled(Rendering(rt, s, seed)) && Consistent(Rendering(rt, s, seed))
    ensures Settled(s) ==> Rendering(rt, s, seed) == ResolveStatus(s)
  {
  }
}
