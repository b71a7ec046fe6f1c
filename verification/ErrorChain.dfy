/** error.go: wrapping constructors, the walkers over the cause chain, and the AppendErrors fold. */
module ErrorChain {
  import opened Values

  /**
   * A non-nil error value. Two errors are the same Go value exactly when they are equal here: id is the
   * identity of the allocation. Plain errors have no Cause method; a Causer is a type of some other package
   * that has one, and its Cause may be nil.
   */
  datatype Err =
    | Underlying(id: nat, msg: string)
    | UnderlyingStack(id: nat, inner: Err)
    | UnderlyingMessage(id: nat, inner: Err, msg: string)
    | Plain(id: nat, text: string)
    | Causer(id: nat, text: string, cause: Option<Err>)

  predicate HasCause(e: Err) {
    e.UnderlyingStack? || e.UnderlyingMessage? || e.Causer?
  }

  function CauseOf(e: Err): Option<Err>
    requires HasCause(e)
  {
    match e
    case UnderlyingStack(_, inner) => Some(inner)
    case UnderlyingMessage(_, inner, _) => Some(inner)
    case Causer(_, _, cause) => cause
  }

  predicate Owned(e: Err) {
    e.Underlying? || e.UnderlyingStack? || e.UnderlyingMessage?
  }

  /** The Error method. */
  function Message(e: Err): string {
    match e
    case Underlying(_, msg) => msg
    case UnderlyingStack(_, inner) => Message(inner)
    case UnderlyingMessage(_, inner, msg) => msg + ": " + Message(inner)
    case Plain(_, text) => text
    case Causer(_, text, _) => text
  }

  /** errors.Unwrap to the end: the package types unwrap to their cause, other types are left alone. */
  function InnerMost(e: Err): Err {
    match e
    case UnderlyingStack(_, inner) => InnerMost(inner)
    case UnderlyingMessage(_, inner, _) => InnerMost(inner)
    case _ => e
  }

  /** Number of errors on the cause chain, the termination measure of the walkers. */
  function ChainLength(e: Err): nat {
    match e
    case UnderlyingStack(_, inner) => 1 + ChainLength(inner)
    case UnderlyingMessage(_, inner, _) => 1 + ChainLength(inner)
    case Causer(_, _, Some(inner)) => 1 + ChainLength(inner)
    case _ => 1
  }

  function Depth(err: Option<Err>): nat {
    if err.Some? then ChainLength(err.value) else 0
  }

  /** Everything Cause visits, in order: the error, its cause, and so on to the end, which may be nil. */
  function Chain(err: Option<Err>): (c: seq<Option<Err>>)
    ensures |c| > 0 && c[0] == err
    decreases Depth(err)
  {
    match err
    case None => [err]
    case Some(e) => if HasCause(e) then [err] + Chain(CauseOf(e)) else [err]
  }

  function Root(err: Option<Err>): Option<Err> {
    Chain(err)[|Chain(err)| - 1]
  }

  // ---- The chain as a relation ----

  /** The Cause method of a returns b. */
  predicate Causes(a: Option<Err>, b: Option<Err>) {
    match a
    case Some(UnderlyingStack(_, inner)) => b == Some(inner)
    case Some(UnderlyingMessage(_, inner, _)) => b == Some(inner)
    case Some(Causer(_, _, cause)) => b == cause
    case _ => false
  }

  /** A walk by way of Cause methods from err until there is none. */
  predicate FullWalk(err: Option<Err>, c: seq<Option<Err>>) {
    && |c| > 0 && c[0] == err
    && (forall i :: 0 <= i < |c| - 1 ==> Causes(c[i], c[i + 1]))
    && (var e := c[|c| - 1]; e.None? || e.value.Underlying? || e.value.Plain?)
  }

  lemma {:induction false} ChainWalks(err: Option<Err>)
    ensures FullWalk(err, Chain(err))
    decreases Depth(err)
  {
    if err.Some? && HasCause(err.value) {
      var c, d := Chain(err), Chain(CauseOf(err.value));
      ChainWalks(CauseOf(err.value));
      forall i | 0 <= i < |c| - 1
        ensures Causes(c[i], c[i + 1])
      {
        if i > 0 { assert Causes(d[i - 1], d[i]); }
      }
    }
  }

  /** The chain is the only such walk. */
  lemma {:induction false} ChainIsWalk(err: Option<Err>, c: seq<Option<Err>>)
    ensures FullWalk(err, c) <==> c == Chain(err)
    decreases Depth(err)
  {
    ChainWalks(err);
    if FullWalk(err, c) {
      if |c| > 1 {
        assert Causes(c[0], c[1]);
        forall i | 0 <= i < |c[1..]| - 1
          ensures Causes(c[1..][i], c[1..][i + 1])
        {
          assert Causes(c[i + 1], c[i + 2]);
        }
        ChainIsWalk(c[1], c[1..]);
        assert c == [err] + c[1..];
      } else {
        assert c == [err];
      }
    }
  }

  predicate Wraps(e: Err) {
    e.UnderlyingStack? || e.UnderlyingMessage?
  }

  /** The first error on the chain that wraps no other is the i-th. */
  predicate UnwrapsTo(c: seq<Option<Err>>, i: nat) {
    && i < |c| && c[i].Some? && !Wraps(c[i].value)
    && (forall j :: 0 <= j < i ==> c[j].Some? && Wraps(c[j].value))
  }

  /** What errors.Unwrap ends at. */
  lemma {:induction false} InnerMostIs(e: Err) returns (i: nat)
    ensures UnwrapsTo(Chain(Some(e)), i) && Chain(Some(e))[i] == Some(InnerMost(e))
    decreases e
  {
    if e.UnderlyingStack? || e.UnderlyingMessage? {
      var j := InnerMostIs(e.inner);
      i := j + 1;
      assert Chain(Some(e)) == [Some(e)] + Chain(Some(e.inner));
    } else {
      i := 0;
    }
  }

  /** Without errors of other packages that have a cause it is the root cause. */
  lemma {:induction false} InnerMostIsRoot(e: Err)
    requires forall x :: x in Chain(Some(e)) && x.Some? ==> !x.value.Causer?
    ensures Root(Some(e)) == Some(InnerMost(e))
    decreases e
  {
    if e.UnderlyingStack? || e.UnderlyingMessage? {
      assert Chain(Some(e)) == [Some(e)] + Chain(Some(e.inner));
      InnerMostIsRoot(e.inner);
    } else {
      assert Some(e) in Chain(Some(e));
    }
  }

  /** The annotations on the chain, outermost first, each with its colon. */
  function Annotations(c: seq<Option<Err>>): string {
    if c == [] then ""
    else if c[0].Some? && c[0].value.UnderlyingMessage? then c[0].value.msg + ": " + Annotations(c[1..])
    else Annotations(c[1..])
  }

  lemma UnwrapsTail(e: Err, i: nat)
    requires Wraps(e) && UnwrapsTo(Chain(Some(e)), i)
    ensures i > 0 && Chain(Some(e)) == [Some(e)] + Chain(Some(e.inner)) && UnwrapsTo(Chain(Some(e.inner)), i - 1)
  {
    var c, d := Chain(Some(e)), Chain(Some(e.inner));
    assert c == [Some(e)] + d;
    forall j | 0 <= j < i - 1
      ensures d[j].Some? && Wraps(d[j].value)
    {
      assert c[j + 1] == d[j];
    }
  }

  lemma AnnotationsNext(e: Err, d: seq<Option<Err>>, i: nat)
    requires Wraps(e) && 0 < i <= |d| + 1
    ensures Annotations(([Some(e)] + d)[..i]) ==
            (if e.UnderlyingMessage? then e.msg + ": " else "") + Annotations(d[..i - 1])
  {
    assert ([Some(e)] + d)[..i] == [Some(e)] + d[..i - 1];
    assert ([Some(e)] + d[..i - 1])[1..] == d[..i - 1];
  }

  /** An error reads as the annotations on its chain, and then the text of the first error that wraps no other. */
  lemma {:induction false} MessageReads(e: Err, i: nat)
    requires UnwrapsTo(Chain(Some(e)), i)
    ensures var last := Chain(Some(e))[i].value;
            Message(e) == Annotations(Chain(Some(e))[..i]) + if last.Underlying? then last.msg else last.text
    decreases e
  {
    if Wraps(e) {
      UnwrapsTail(e, i);
      MessageReads(e.inner, i - 1);
      AnnotationsNext(e, Chain(Some(e.inner)), i);
    } else {
      assert i == 0 && Chain(Some(e))[..0] == [];
    }
  }

  // ---- The walkers ----

  method Cause(err: Option<Err>) returns (r: Option<Err>)
    ensures r == Root(err)
  {
    r := err;
    while r.Some?
      invariant Root(r) == Root(err)
      decreases Depth(r)
    {
      if !HasCause(r.value) {
        break;
      }
      r := CauseOf(r.value);
    }
  }

  method Is(err: Option<Err>, target: Option<Err>) returns (b: bool)
    ensures b <==> target in Chain(err)
  {
    if err == target {
      return true;
    }
    var cur := err;
    while cur.Some?
      invariant cur != target
      invariant target in Chain(err) <==> target in Chain(cur)
      decreases Depth(cur)
    {
      if !HasCause(cur.value) {
        break;
      }
      cur := CauseOf(cur.value);
      if cur == target {
        return true;
      }
    }
    return false;
  }

  predicate OwnedIn(c: seq<Option<Err>>) {
    exists i :: 0 <= i < |c| && c[i].Some? && Owned(c[i].value)
  }

  lemma OwnedInTail(c: seq<Option<Err>>)
    requires |c| > 0 && !(c[0].Some? && Owned(c[0].value))
    ensures OwnedIn(c) <==> OwnedIn(c[1..])
  {
    if OwnedIn(c) {
      var i :| 0 <= i < |c| && c[i].Some? && Owned(c[i].value);
      assert c[1..][i - 1] == c[i];
    }
  }

  method IsOwned(err: Option<Err>) returns (b: bool)
    ensures b <==> OwnedIn(Chain(err))
  {
    var cur := err;
    while cur.Some?
      invariant OwnedIn(Chain(err)) <==> OwnedIn(Chain(cur))
      decreases Depth(cur)
    {
      if Owned(cur.value) {
        assert Chain(cur)[0] == cur;
        return true;
      }
      OwnedInTail(Chain(cur));
      if !HasCause(cur.value) {
        break;
      }
      cur := CauseOf(cur.value);
    }
    return false;
  }

  // ---- The constructors ----

  /** The annotating constructors; the formatting variants build the same value from the formatted message. */
  datatype Constructor = Ack | AppendMessage(msg: string) | AppendAck(msg: string)

  function Construct(c: Constructor, err: Option<Err>, id: nat): Option<Err> {
    match err
    case None => None
    case Some(e) =>
      match c
      case Ack => Some(UnderlyingStack(id, e))
      case AppendMessage(msg) => Some(UnderlyingMessage(id, e, msg))
      case AppendAck(msg) => Some(UnderlyingStack(id + 1, UnderlyingMessage(id, e, msg)))
  }

  /** Every constructor only puts new errors in front of the chain: the root stays, Is keeps what it found. */
  lemma WrapKeepsChain(c: Constructor, err: Option<Err>, id: nat, target: Option<Err>)
    ensures Root(Construct(c, err, id)) == Root(err)
    ensures target in Chain(err) ==> target in Chain(Construct(c, err, id))
    ensures target in Chain(Construct(c, err, id)) && target !in Chain(err) ==>
              target.Some? && target.value.id in {id, id + 1}
    ensures Construct(c, err, id).None? <==> err.None?
  {
    if err.Some? && c.AppendAck? {
      var m := Some(UnderlyingMessage(id, err.value, c.msg));
      assert Chain(m) == [m] + Chain(err);
      assert Chain(Construct(c, err, id)) == [Construct(c, err, id)] + Chain(m);
    }
  }

  /** How many new errors a constructor puts in front of the chain. */
  function NewErrors(c: Constructor): nat {
    if c.AppendAck? then 2 else 1
  }

  /** An annotated error reads as the annotation, a colon and the old text; acknowledging it keeps the text. */
  lemma WrapReads(c: Constructor, e: Err, id: nat)
    ensures var r := Construct(c, Some(e), id);
            && r.Some? && Message(r.value) == (if c.Ack? then Message(e) else c.msg + ": " + Message(e))
            && |Chain(r)| == NewErrors(c) + |Chain(Some(e))| && Chain(r)[NewErrors(c)] == Some(e)
            && (r.value.UnderlyingStack? <==> !c.AppendMessage?) && Owned(r.value)
    ensures Construct(c, None, id) == None
  {
    if c.AppendAck? {
      var m := UnderlyingMessage(id, e, c.msg);
      assert Chain(Some(m)) == [Some(m)] + Chain(Some(e));
      assert Chain(Construct(c, Some(e), id)) == [Construct(c, Some(e), id)] + Chain(Some(m));
    }
  }

  // ---- AppendErrors ----

  function AppendOne(cur: Option<Err>, e: Err, id: nat): Option<Err> {
    if cur.None? then Some(e) else Construct(AppendAck(Message(e)), cur, id)
  }

  /** The fold over the argument list; the second component is the next unused allocation id. */
  function AppendAll(cur: Option<Err>, errs: seq<Option<Err>>, id: nat): (Option<Err>, nat)
    decreases |errs|
  {
    if errs == [] then (cur, id)
    else if errs[0].None? then AppendAll(cur, errs[1..], id)
    else AppendAll(AppendOne(cur, errs[0].value, id), errs[1..], if cur.None? then id else id + 2)
  }

  method AppendErrors(errors: Option<Err>, errs: seq<Option<Err>>, nextId: nat) returns (r: Option<Err>, id: nat)
    ensures (r, id) == AppendAll(errors, errs, nextId)
  {
    r, id := errors, nextId;
    for i := 0 to |errs|
      invariant AppendAll(r, errs[i..], id) == AppendAll(errors, errs, nextId)
    {
      assert errs[i..][1..] == errs[i + 1..];
      if errs[i].None? {
        continue;
      }
      if r.None? {
        r := errs[i];
        continue;
      }
      r := Construct(AppendAck(Message(errs[i].value)), r, id);
      id := id + 2;
    }
  }

  function NonNil(errs: seq<Option<Err>>): seq<Err> {
    if errs == [] then [] else (if errs[0].Some? then [errs[0].value] else []) + NonNil(errs[1..])
  }

  function Lift(es: seq<Err>): (r: seq<Option<Err>>)
    ensures |r| == |es| && forall i :: 0 <= i < |es| ==> r[i] == Some(es[i])
  {
    seq(|es|, i requires 0 <= i < |es| => Some(es[i]))
  }

  /** Nil arguments leave no trace. */
  lemma {:induction false} NilsIgnored(cur: Option<Err>, errs: seq<Option<Err>>, id: nat)
    ensures AppendAll(cur, errs, id) == AppendAll(cur, Lift(NonNil(errs)), id)
    decreases |errs|
  {
    if errs != [] {
      if errs[0].None? {
        NilsIgnored(cur, errs[1..], id);
        assert NonNil(errs) == NonNil(errs[1..]);
      } else {
        var e := errs[0].value;
        NilsIgnored(AppendOne(cur, e, id), errs[1..], if cur.None? then id else id + 2);
        assert NonNil(errs) == [e] + NonNil(errs[1..]);
        assert Lift(NonNil(errs))[1..] == Lift(NonNil(errs[1..]));
      }
    }
  }

  /** Appending two lists in turn is appending their concatenation. */
  lemma {:induction false} AppendSplits(cur: Option<Err>, a: seq<Option<Err>>, b: seq<Option<Err>>, id: nat)
    ensures AppendAll(cur, a + b, id) ==
            AppendAll(AppendAll(cur, a, id).0, b, AppendAll(cur, a, id).1)
    decreases |a|
  {
    if a == [] {
      assert a + b == b;
    } else {
      assert (a + b)[1..] == a[1..] + b;
      if a[0].None? {
        AppendSplits(cur, a[1..], b, id);
      } else {
        AppendSplits(AppendOne(cur, a[0].value, id), a[1..], b, if cur.None? then id else id + 2);
      }
    }
  }

  /** The messages, newest first, joined by ": ". */
  function NewestFirst(es: seq<Err>): string
    requires |es| > 0
  {
    if |es| == 1 then Message(es[0]) else Message(es[|es| - 1]) + ": " + NewestFirst(es[..|es| - 1])
  }

  /**
   * The appended error keeps the first error as its root cause and reads as the messages newest first;
   * every error that was in the first error's chain is still found by Is.
   */
  lemma {:induction false} AppendedReads(es: seq<Err>, id: nat, target: Option<Err>)
    requires |es| > 0
    ensures var r := AppendAll(None, Lift(es), id).0;
            && r.Some? && Root(r) == Root(Some(es[0])) && Message(r.value) == NewestFirst(es)
            && (target in Chain(Some(es[0])) ==> target in Chain(r))
    decreases |es|
  {
    var last := |es| - 1;
    var a, b := Lift(es[..last]), Lift(es[last..]);
    assert Lift(es) == a + b;
    AppendSplits(None, a, b, id);
    var (cur, id1) := AppendAll(None, a, id);
    assert AppendAll(cur, b, id1).0 == AppendOne(cur, es[last], id1) by {
      assert b[1..] == [];
    }
    if last == 0 {
      assert a == [];
    } else {
      AppendedReads(es[..last], id, target);
      WrapKeepsChain(AppendAck(Message(es[last])), cur, id1, target);
    }
  }

  /** Each appended error puts an annotation and a stack trace in front of the chain. */
  lemma {:induction false} AppendedChain(es: seq<Err>, id: nat)
    requires |es| > 0
    ensures var (r, next) := AppendAll(None, Lift(es), id);
            && r.Some? && next == id + 2 * (|es| - 1) && |Chain(r)| == |Chain(Some(es[0]))| + 2 * (|es| - 1)
            && (|es| > 1 ==> r.value.UnderlyingStack? && r.value.inner.UnderlyingMessage?
                             && r.value.inner.msg == Message(es[|es| - 1]))
    decreases |es|
  {
    var last := |es| - 1;
    var a, b := Lift(es[..last]), Lift(es[last..]);
    assert Lift(es) == a + b;
    AppendSplits(None, a, b, id);
    var (cur, id1) := AppendAll(None, a, id);
    assert b[1..] == [];
    if last == 0 {
      assert a == [];
    } else {
      AppendedChain(es[..last], id);
      WrapReads(AppendAck(Message(es[last])), cur.value, id1);
    }
  }

  /** The same onto an error that is there: it keeps its root cause and is read last. */
  lemma AppendedTo(e: Err, es: seq<Err>, id: nat, target: Option<Err>)
    ensures var r := AppendAll(Some(e), Lift(es), id).0;
            && r.Some? && Root(r) == Root(Some(e)) && Message(r.value) == NewestFirst([e] + es)
            && (target in Chain(Some(e)) ==> target in Chain(r))
  {
    AppendedReads([e] + es, id, target);
    assert Lift([e] + es)[1..] == Lift(es);
  }
}
