/** wrapper.Cause on an arbitrary finite graph of error values, cyclic ones included. */
module CauseWalk {
  import opened Values

  /**
   * An error value by identity. A Leaf has no Cause method, a Plain node returns a stored error, and a Wrapper is
   * an envelope used as an error, whose Cause method is the walk itself. (autoAdjust is taken to have run, so
   * errors is None only for an envelope that has no error.)
   */
  datatype Node = Leaf | Plain(next: Option<nat>) | Wrapper(errors: Option<nat>)

  type Graph = map<nat, Node>

  function Succ(g: Graph, n: nat): Option<nat>
    requires n in g
  {
    match g[n]
    case Leaf => None
    case Plain(next) => next
    case Wrapper(errors) => errors
  }

  predicate PointsInto(g: Graph, node: Node) {
    match node
    case Leaf => true
    case Plain(next) => next.Some? ==> next.value in g
    case Wrapper(errors) => errors.Some? ==> errors.value in g
  }

  ghost predicate Closed(g: Graph) {
    forall n :: n in g ==> PointsInto(g, g[n])
  }

  /** A result of Cause: nil, the freshly made empty error, or a node. */
  datatype Ref = Nil | Fresh | At(n: nat)

  function Pointer(o: Option<nat>): Ref {
    if o.None? then Ref.Nil else At(o.value)
  }

  // ---- The walk, cut off after fuel steps; None means it is still running ----

  ghost function WrapperCause(g: Graph, w: nat, fuel: nat): (r: Option<Ref>)
    requires Closed(g) && w in g && g[w].Wrapper?
    ensures r.Some? && r.value.At? ==> r.value.n in g
    decreases fuel, 1
  {
    if g[w].errors.None? then Some(Fresh) else Walk(g, At(g[w].errors.value), {}, fuel)
  }

  ghost function Walk(g: Graph, cur: Ref, visited: set<nat>, fuel: nat): (r: Option<Ref>)
    requires Closed(g) && (cur.At? ==> cur.n in g)
    ensures r.Some? && r.value.At? ==> r.value.n in g
    decreases fuel, 0
  {
    if fuel == 0 then None
    else if !cur.At? || cur.n in visited then Some(cur)
    else
      var n := cur.n;
      match g[n]
      case Leaf => Some(cur)
      case Plain(next) =>
        if Pointer(next) == cur then Some(cur) else Walk(g, Pointer(next), visited + {n}, fuel - 1)
      case Wrapper(_) =>
        var next := WrapperCause(g, n, fuel - 1);
        if next.None? then None
        else if next.value == cur then Some(cur)
        else Walk(g, next.value, visited + {n}, fuel - 1)
  }

  /** The package-level Cause: the same chain without a visited set. */
  ghost function PackageCause(g: Graph, cur: Ref, fuel: nat): Option<Ref>
    requires Closed(g) && (cur.At? ==> cur.n in g)
    decreases fuel
  {
    if fuel == 0 then None
    else if !cur.At? then Some(cur)
    else
      match g[cur.n]
      case Leaf => Some(cur)
      case Plain(next) => PackageCause(g, Pointer(next), fuel - 1)
      case Wrapper(_) =>
        var next := WrapperCause(g, cur.n, fuel - 1);
        if next.None? then None else PackageCause(g, next.value, fuel - 1)
  }

  lemma WalkMonotone(g: Graph, cur: Ref, visited: set<nat>, f: nat, f': nat)
    requires Closed(g) && (cur.At? ==> cur.n in g)
    requires f <= f' && Walk(g, cur, visited, f).Some?
    ensures Walk(g, cur, visited, f') == Walk(g, cur, visited, f)
    decreases f, 0
  {
    if cur.At? && cur.n !in visited {
      match g[cur.n]
      case Leaf =>
      case Plain(next) =>
        if Pointer(next) != cur {
          WalkMonotone(g, Pointer(next), visited + {cur.n}, f - 1, f' - 1);
        }
      case Wrapper(_) =>
        CauseMonotone(g, cur.n, f - 1, f' - 1);
        var next := WrapperCause(g, cur.n, f - 1);
        if next.value != cur {
          WalkMonotone(g, next.value, visited + {cur.n}, f - 1, f' - 1);
        }
    }
  }

  lemma CauseMonotone(g: Graph, w: nat, f: nat, f': nat)
    requires Closed(g) && w in g && g[w].Wrapper?
    requires f <= f' && WrapperCause(g, w, f).Some?
    ensures WrapperCause(g, w, f') == WrapperCause(g, w, f)
    decreases f, 1
  {
    if g[w].errors.Some? {
      WalkMonotone(g, At(g[w].errors.value), {}, f, f');
    }
  }

  // ---- Runs without the cut-off ----

  ghost predicate Yields(g: Graph, cur: Ref, visited: set<nat>, r: Ref)
    requires Closed(g) && (cur.At? ==> cur.n in g)
  {
    exists fuel: nat :: Walk(g, cur, visited, fuel) == Some(r)
  }

  ghost predicate Returns(g: Graph, w: nat, r: Ref)
    requires Closed(g) && w in g && g[w].Wrapper?
  {
    exists fuel: nat :: WrapperCause(g, w, fuel) == Some(r)
  }

  lemma YieldsStep(g: Graph, n: nat, next: Ref, visited: set<nat>, r: Ref)
    requires Closed(g) && n in g && n !in visited && !g[n].Leaf? && next != At(n)
    requires next.At? ==> next.n in g
    requires g[n].Plain? ==> next == Pointer(g[n].next)
    requires g[n].Wrapper? ==> Returns(g, n, next)
    requires Yields(g, next, visited + {n}, r)
    ensures Yields(g, At(n), visited, r)
  {
    var f: nat :| Walk(g, next, visited + {n}, f) == Some(r);
    if g[n].Plain? {
      assert Walk(g, At(n), visited, f + 1) == Some(r);
    } else {
      var e: nat :| WrapperCause(g, n, e) == Some(next);
      CauseMonotone(g, n, e, e + f);
      WalkMonotone(g, next, visited + {n}, f, e + f);
      assert Walk(g, At(n), visited, e + f + 1) == Some(r);
    }
  }

  // ---- Reachability ----

  ghost function Orbit(g: Graph, n: nat, k: nat): (r: Option<nat>)
    requires Closed(g) && n in g
    ensures r.Some? ==> r.value in g
  {
    if k == 0 then Some(n)
    else
      var p := Orbit(g, n, k - 1);
      if p.None? then None else Succ(g, p.value)
  }

  lemma OrbitAdd(g: Graph, a: nat, i: nat, j: nat)
    requires Closed(g) && a in g && Orbit(g, a, i).Some?
    ensures Orbit(g, a, i + j) == Orbit(g, Orbit(g, a, i).value, j)
  {
  }

  ghost predicate After(g: Graph, a: nat, b: nat)
    requires Closed(g) && a in g
  {
    exists k: nat :: k > 0 && Orbit(g, a, k) == Some(b)
  }

  lemma AfterNext(g: Graph, a: nat)
    requires Closed(g) && a in g && Succ(g, a).Some?
    ensures After(g, a, Succ(g, a).value)
  {
    assert Orbit(g, a, 0) == Some(a);
    assert Orbit(g, a, 1) == Succ(g, a);
  }

  lemma AfterTransitive(g: Graph, a: nat, b: nat, c: nat)
    requires Closed(g) && a in g && After(g, a, b) && b in g && After(g, b, c)
    ensures After(g, a, c)
  {
    var i: nat :| i > 0 && Orbit(g, a, i) == Some(b);
    var j: nat :| j > 0 && Orbit(g, b, j) == Some(c);
    OrbitAdd(g, a, i, j);
    assert Orbit(g, a, i + j) == Some(c);
  }

  /** Everything on the chain behind n. */
  ghost function Behind(g: Graph, n: nat): set<nat>
    requires Closed(g) && n in g
  {
    set m | m in g && After(g, n, m)
  }

  /** No envelope on the chain of w, w included, lies on a cycle. */
  ghost predicate Grounded(g: Graph, w: nat)
    requires Closed(g) && w in g
  {
    forall u :: (u == w || u in Behind(g, w)) && g[u].Wrapper? ==> !After(g, u, u)
  }

  lemma GroundedBehind(g: Graph, w: nat, u: nat)
    requires Closed(g) && w in g && Grounded(g, w) && u in Behind(g, w)
    ensures Grounded(g, u) && Behind(g, u) <= Behind(g, w)
    ensures g[u].Wrapper? ==> Behind(g, u) < Behind(g, w)
  {
    forall v | v in Behind(g, u)
      ensures v in Behind(g, w)
    {
      AfterTransitive(g, w, u, v);
    }
    if g[u].Wrapper? {
      assert u !in Behind(g, u);
    }
  }

  // ---- What the result is ----

  /** The end of a chain, or a node on a cycle: a self-reference or the first node met twice. */
  ghost predicate Terminal(g: Graph, n: nat)
    requires Closed(g) && n in g
  {
    g[n].Leaf? || After(g, n, n)
  }

  lemma CauseResult(g: Graph, w: nat, fuel: nat)
    requires Closed(g) && w in g && g[w].Wrapper?
    ensures var r := WrapperCause(g, w, fuel);
            r.Some? && r.value.At? ==> After(g, w, r.value.n) && Terminal(g, r.value.n)
    decreases fuel, 1
  {
    if g[w].errors.Some? {
      var e := g[w].errors.value;
      AfterNext(g, w);
      WalkResult(g, At(e), {}, fuel);
      var r := Walk(g, At(e), {}, fuel);
      if r.Some? && r.value.At? && r.value.n != e {
        AfterTransitive(g, w, e, r.value.n);
      }
    }
  }

  lemma WalkResult(g: Graph, cur: Ref, visited: set<nat>, fuel: nat)
    requires Closed(g) && (cur.At? ==> cur.n in g) && visited <= g.Keys
    requires cur.At? ==> forall v :: v in visited ==> After(g, v, cur.n)
    ensures var r := Walk(g, cur, visited, fuel);
            r.Some? && r.value.At? ==>
              && cur.At? && Terminal(g, r.value.n)
              && (r.value.n == cur.n || After(g, cur.n, r.value.n))
    decreases fuel, 0
  {
    if fuel > 0 && cur.At? && cur.n !in visited && !g[cur.n].Leaf? {
      var n := cur.n;
      var next := if g[n].Plain? then Some(Pointer(g[n].next)) else WrapperCause(g, n, fuel - 1);
      if g[n].Wrapper? {
        CauseResult(g, n, fuel - 1);
      }
      if next.Some? && next.value.At? {
        var m := next.value.n;
        if g[n].Plain? {
          AfterNext(g, n);
        }
        assert After(g, n, m);
        forall v | v in visited + {n}
          ensures After(g, v, m)
        {
          if v != n {
            AfterTransitive(g, v, n, m);
          }
        }
        if m != n {
          WalkResult(g, next.value, visited + {n}, fuel - 1);
          var r := Walk(g, next.value, visited + {n}, fuel - 1);
          if r.Some? && r.value.At? && r.value.n != m {
            AfterTransitive(g, n, m, r.value.n);
          }
        }
      } else if next.Some? {
        WalkResult(g, next.value, visited + {n}, fuel - 1);
      }
    }
  }

  // ---- Termination ----

  lemma CauseTerminates(g: Graph, w: nat) returns (r: Ref)
    requires Closed(g) && w in g && g[w].Wrapper? && Grounded(g, w)
    ensures Returns(g, w, r)
    decreases |Behind(g, w)|, 1, 0
  {
    if g[w].errors.None? {
      r := Fresh;
      assert WrapperCause(g, w, 0) == Some(r);
    } else {
      AfterNext(g, w);
      r := WalkTerminates(g, w, At(g[w].errors.value), {});
      var fuel: nat :| Walk(g, At(g[w].errors.value), {}, fuel) == Some(r);
      assert WrapperCause(g, w, fuel) == Some(r);
    }
  }

  lemma SmallerSet<T>(a: set<T>, b: set<T>)
    requires a < b
    ensures |a| < |b|
  {
    assert b == a + (b - a);
    assert |b| == |a| + |b - a|;
  }

  lemma WalkTerminates(g: Graph, w: nat, cur: Ref, visited: set<nat>) returns (r: Ref)
    requires Closed(g) && w in g && g[w].Wrapper? && Grounded(g, w)
    requires cur.At? ==> cur.n in Behind(g, w)
    requires visited <= g.Keys
    ensures Yields(g, cur, visited, r)
    decreases |Behind(g, w)|, 0, |g.Keys - visited|
  {
    if !cur.At? || cur.n in visited || g[cur.n].Leaf? {
      r := cur;
      assert Walk(g, cur, visited, 1) == Some(r);
    } else {
      var n := cur.n;
      var next := NextRef(g, w, n);
      if next == cur {
        r := cur;
        assert Walk(g, cur, visited, 1) == Some(r);
      } else {
        SmallerSet(g.Keys - (visited + {n}), g.Keys - visited);
        r := WalkTerminates(g, w, next, visited + {n});
        YieldsStep(g, n, next, visited, r);
      }
    }
  }

  /** What the Cause method of a node on the chain returns: a node further on, other than itself if an envelope. */
  lemma NextRef(g: Graph, w: nat, n: nat) returns (next: Ref)
    requires Closed(g) && w in g && g[w].Wrapper? && Grounded(g, w) && n in Behind(g, w) && !g[n].Leaf?
    ensures next.At? ==> next.n in Behind(g, w)
    ensures g[n].Plain? ==> next == Pointer(g[n].next)
    ensures g[n].Wrapper? ==> Returns(g, n, next) && next != At(n)
    decreases |Behind(g, w)|, 0, 0
  {
    if g[n].Plain? {
      next := Pointer(g[n].next);
      if next.At? {
        AfterNext(g, n);
      }
    } else {
      GroundedBehind(g, w, n);
      SmallerSet(Behind(g, n), Behind(g, w));
      next := CauseTerminates(g, n);
      var f: nat :| WrapperCause(g, n, f) == Some(next);
      CauseResult(g, n, f);
    }
    if next.At? {
      AfterTransitive(g, w, n, next.n);
    }
  }

  // ---- Divergence ----

  /** The first envelope behind w is j steps away. */
  ghost predicate FirstWrapper(g: Graph, w: nat, j: nat)
    requires Closed(g) && w in g
  {
    && j > 0 && Orbit(g, w, j).Some? && g[Orbit(g, w, j).value].Wrapper?
    && forall i: nat :: 0 < i < j && Orbit(g, w, i).Some? ==> !g[Orbit(g, w, i).value].Wrapper?
  }

  lemma FindFirst(g: Graph, w: nat, k: nat) returns (j: nat)
    requires Closed(g) && w in g && k > 0 && Orbit(g, w, k).Some? && g[Orbit(g, w, k).value].Wrapper?
    ensures FirstWrapper(g, w, j) && j <= k
    decreases k
  {
    if i: nat :| 0 < i < k && Orbit(g, w, i).Some? && g[Orbit(g, w, i).value].Wrapper? {
      j := FindFirst(g, w, i);
    } else {
      j := k;
    }
  }

  lemma OrbitPrefix(g: Graph, w: nat, i: nat, j: nat)
    requires Closed(g) && w in g && i <= j && Orbit(g, w, j).Some?
    ensures Orbit(g, w, i).Some?
    decreases j
  {
    if i < j {
      OrbitPrefix(g, w, i, j - 1);
    }
  }

  /** Before the first envelope no node repeats. */
  lemma NoRepeat(g: Graph, w: nat, j: nat, a: nat, b: nat)
    requires Closed(g) && w in g && FirstWrapper(g, w, j) && 0 < a < b <= j
    ensures Orbit(g, w, a).Some? && Orbit(g, w, b).Some? && Orbit(g, w, a) != Orbit(g, w, b)
  {
    OrbitPrefix(g, w, a, j);
    OrbitPrefix(g, w, b, j);
    if Orbit(g, w, a) == Orbit(g, w, b) {
      OrbitAdd(g, w, a, j - b);
      OrbitAdd(g, w, b, j - b);
    }
  }

  /** An ungrounded envelope calls another ungrounded one, so the walk is still running after any number of steps. */
  lemma CauseDiverges(g: Graph, w: nat, fuel: nat)
    requires Closed(g) && w in g && g[w].Wrapper? && !Grounded(g, w)
    ensures WrapperCause(g, w, fuel).None?
    decreases fuel, 1
  {
    var u :| (u == w || u in Behind(g, w)) && g[u].Wrapper? && After(g, u, u);
    assert After(g, w, u);
    var k: nat :| k > 0 && Orbit(g, w, k) == Some(u);
    var j := FindFirst(g, w, k);
    var v := Orbit(g, w, j).value;
    OrbitAdd(g, w, j, k - j);
    assert Orbit(g, v, k - j) == Some(u);
    assert v == u || After(g, v, u);
    assert !Grounded(g, v);
    OrbitPrefix(g, w, 1, j);
    assert Orbit(g, w, 0) == Some(w);
    assert Orbit(g, w, 1) == g[w].errors;
    WalkDiverges(g, w, j, 1, {}, fuel);
  }

  /** x is one of the nodes between w and its i-th successor. */
  ghost predicate Passed(g: Graph, w: nat, i: nat, x: nat)
    requires Closed(g) && w in g
  {
    exists a: nat :: 0 < a < i && Orbit(g, w, a) == Some(x)
  }

  lemma WalkDiverges(g: Graph, w: nat, j: nat, i: nat, visited: set<nat>, fuel: nat)
    requires Closed(g) && w in g && FirstWrapper(g, w, j) && 0 < i <= j
    requires !Grounded(g, Orbit(g, w, j).value)
    requires forall x :: x in visited ==> Passed(g, w, i, x)
    requires Orbit(g, w, i).Some?
    ensures Walk(g, At(Orbit(g, w, i).value), visited, fuel).None?
    decreases fuel, 0
  {
    var n := Orbit(g, w, i).value;
    if n in visited {
      var a: nat :| 0 < a < i && Orbit(g, w, a) == Some(n);
      NoRepeat(g, w, j, a, i);
    }
    if fuel > 0 {
      if i == j {
        CauseDiverges(g, n, fuel - 1);
      } else {
        NoRepeat(g, w, j, i, i + 1);
        assert Orbit(g, w, i + 1) == Succ(g, n);
        forall x | x in visited + {n}
          ensures Passed(g, w, i + 1, x)
        {
          if x == n {
            assert Orbit(g, w, i) == Some(x);
          } else {
            var a: nat :| 0 < a < i && Orbit(g, w, a) == Some(x);
          }
        }
        assert g[n].Plain?;
        WalkDiverges(g, w, j, i + 1, visited + {n}, fuel - 1);
      }
    }
  }

  /** The call of wrapper.Cause on w comes back after finitely many steps. */
  ghost predicate Returned(g: Graph, w: nat)
    requires Closed(g) && w in g && g[w].Wrapper?
  {
    exists fuel: nat :: WrapperCause(g, w, fuel).Some?
  }

  /** wrapper.Cause returns on a finite graph, cyclic or not, exactly when no envelope on the chain lies on a cycle. */
  lemma CauseTerminatesIff(g: Graph, w: nat)
    requires Closed(g) && w in g && g[w].Wrapper?
    ensures Returned(g, w) <==> Grounded(g, w)
  {
    if Grounded(g, w) {
      var r := CauseTerminates(g, w);
      var fuel: nat :| WrapperCause(g, w, fuel) == Some(r);
      assert WrapperCause(g, w, fuel).Some?;
    } else if Returned(g, w) {
      var fuel: nat :| WrapperCause(g, w, fuel).Some?;
      CauseDiverges(g, w, fuel);
    }
  }

  /** A node it returns is the end of the chain or a plain error on a cycle. */
  lemma ReturnedNode(g: Graph, w: nat, fuel: nat)
    requires Closed(g) && w in g && g[w].Wrapper? && WrapperCause(g, w, fuel).Some?
    ensures var r := WrapperCause(g, w, fuel).value;
            r.At? ==> r.n in g && After(g, w, r.n) && (g[r.n].Leaf? || (g[r.n].Plain? && After(g, r.n, r.n)))
  {
    assert Returned(g, w);
    CauseTerminatesIff(g, w);
    CauseResult(g, w, fuel);
  }

  /** The smallest diverging case: an envelope whose error is itself. */
  lemma SelfWrappedDiverges(fuel: nat)
    ensures WrapperCause(map[0 := Wrapper(Some(0))], 0, fuel).None?
  {
    var g: Graph := map[0 := Wrapper(Some(0))];
    AfterNext(g, 0);
    CauseDiverges(g, 0, fuel);
  }

  // ---- Agreement with the package-level Cause ----

  lemma OrbitTail(g: Graph, n: nat, k: nat)
    requires Closed(g) && n in g && Succ(g, n).Some? && Orbit(g, n, k).None?
    ensures k > 0 && Orbit(g, Succ(g, n).value, k - 1).None?
  {
    assert Orbit(g, n, 0) == Some(n);
    assert Orbit(g, n, 1) == Succ(g, n);
    OrbitAdd(g, n, 1, k - 1);
  }

  /** The end of a chain that is k steps long. */
  ghost function ChainEnd(g: Graph, n: nat, k: nat): (r: Ref)
    requires Closed(g) && n in g && Orbit(g, n, k).None?
    ensures r.At? ==> r.n in g && g[r.n].Leaf?
    decreases k
  {
    if g[n].Leaf? then At(n)
    else if Succ(g, n).None? then (if g[n].Plain? then Ref.Nil else Fresh)
    else (OrbitTail(g, n, k); ChainEnd(g, Succ(g, n).value, k - 1))
  }

  lemma LeafEnds(g: Graph, n: nat)
    requires Closed(g) && n in g && g[n].Leaf?
    ensures forall m :: !After(g, n, m)
  {
    forall k: nat | k > 0
      ensures Orbit(g, n, k).None?
    {
      assert Orbit(g, n, 0) == Some(n);
      assert Orbit(g, n, 1) == Succ(g, n);
      if Orbit(g, n, k).Some? {
        OrbitPrefix(g, n, 1, k);
      }
    }
  }

  lemma CycleGoesOn(g: Graph, n: nat, k: nat)
    requires Closed(g) && n in g && After(g, n, n)
    ensures Orbit(g, n, k).Some?
    decreases k
  {
    var p: nat :| p > 0 && Orbit(g, n, p) == Some(n);
    if k <= p {
      OrbitPrefix(g, n, k, p);
    } else {
      OrbitAdd(g, n, p, k - p);
      CycleGoesOn(g, n, k - p);
    }
  }

  /** On every acyclic chain both walks stop, at the same end. */
  lemma CausesAgree(g: Graph, n: nat, k: nat, visited: set<nat>) returns (fuel: nat)
    requires Closed(g) && n in g && Orbit(g, n, k).None?
    requires forall v :: v in visited ==> v in g && After(g, v, n)
    ensures Walk(g, At(n), visited, fuel) == Some(ChainEnd(g, n, k))
    ensures PackageCause(g, At(n), fuel) == Some(ChainEnd(g, n, k))
    decreases k
  {
    if n in visited {
      CycleGoesOn(g, n, k);
    }
    if g[n].Leaf? || Succ(g, n).None? {
      fuel := 2;
    } else {
      var m := Succ(g, n).value;
      OrbitTail(g, n, k);
      AfterNext(g, n);
      if m == n {
        CycleGoesOn(g, n, k);
      }
      forall v | v in visited + {n}
        ensures v in g && After(g, v, m)
      {
        if v != n {
          AfterTransitive(g, v, n, m);
        }
      }
      var end := ChainEnd(g, m, k - 1);
      if g[n].Plain? {
        var f := CausesAgree(g, m, k - 1, visited + {n});
        fuel := f + 1;
      } else {
        var f := CausesAgree(g, m, k - 1, {});
        fuel := f + 2;
        WalkMonotone(g, At(m), {}, f, f + 1);
        assert WrapperCause(g, n, f + 1) == Some(end);
        if end.At? {
          LeafEnds(g, end.n);
        }
        assert Walk(g, end, visited + {n}, f + 1) == Some(end);
        assert PackageCause(g, end, f + 1) == Some(end);
      }
    }
  }

  // ---- Which result it is ----

  lemma ReturnsOnce(g: Graph, w: nat, r: Ref, r': Ref)
    requires Closed(g) && w in g && g[w].Wrapper? && Returns(g, w, r) && Returns(g, w, r')
    ensures r == r'
  {
    var f: nat :| WrapperCause(g, w, f) == Some(r);
    var f': nat :| WrapperCause(g, w, f') == Some(r');
    if f <= f' {
      CauseMonotone(g, w, f, f');
    } else {
      CauseMonotone(g, w, f', f);
    }
  }

  /** What stands for the last node: itself, nil behind a plain error, or an empty error behind an envelope. */
  function EndOf(g: Graph, n: nat): Ref
    requires n in g
  {
    match g[n]
    case Leaf => At(n)
    case Plain(_) => Ref.Nil
    case Wrapper(_) => Fresh
  }

  lemma ChainEndIs(g: Graph, n: nat, k: nat, j: nat)
    requires Closed(g) && n in g && Orbit(g, n, k).None? && Orbit(g, n, j).Some? && Orbit(g, n, j + 1).None?
    ensures ChainEnd(g, n, k) == EndOf(g, Orbit(g, n, j).value)
    decreases k
  {
    assert Orbit(g, n, 0) == Some(n);
    assert Orbit(g, n, 1) == Succ(g, n);
    if Succ(g, n).None? {
      if j > 0 { OrbitPrefix(g, n, 1, j); }
    } else {
      assert j > 0;
      OrbitTail(g, n, k);
      OrbitAdd(g, n, 1, j - 1);
      OrbitAdd(g, n, 1, j);
      ChainEndIs(g, Succ(g, n).value, k - 1, j - 1);
    }
  }

  /** On a chain that ends, j steps behind w, exactly its end is returned. */
  lemma CauseAtEnd(g: Graph, w: nat, j: nat, r: Ref)
    requires Closed(g) && w in g && g[w].Wrapper? && Orbit(g, w, j).Some? && Orbit(g, w, j + 1).None?
    ensures Returns(g, w, r) <==> r == EndOf(g, Orbit(g, w, j).value)
  {
    var end := EndOf(g, Orbit(g, w, j).value);
    assert Orbit(g, w, 0) == Some(w);
    assert Orbit(g, w, 1) == g[w].errors;
    if g[w].errors.None? {
      if j > 0 { OrbitPrefix(g, w, 1, j); }
      assert WrapperCause(g, w, 0) == Some(end);
    } else {
      var n := g[w].errors.value;
      OrbitAdd(g, w, 1, j - 1);
      OrbitAdd(g, w, 1, j);
      ChainEndIs(g, n, j, j - 1);
      var fuel := CausesAgree(g, n, j, {});
      assert WrapperCause(g, w, fuel) == Some(end);
    }
    if Returns(g, w, r) { ReturnsOnce(g, w, r, end); }
  }

  /** c is met again after p steps, and not before. */
  ghost predicate Period(g: Graph, c: nat, p: nat)
    requires Closed(g) && c in g
  {
    p > 0 && Orbit(g, c, p) == Some(c) && forall i: nat :: 0 < i < p ==> Orbit(g, c, i) != Some(c)
  }

  lemma FindPeriod(g: Graph, c: nat, k: nat) returns (p: nat)
    requires Closed(g) && c in g && k > 0 && Orbit(g, c, k) == Some(c)
    ensures Period(g, c, p)
    decreases k
  {
    if i: nat :| 0 < i < k && Orbit(g, c, i) == Some(c) {
      p := FindPeriod(g, c, i);
    } else {
      p := k;
    }
  }

  /** No node of a cycle is met twice within a period. */
  lemma DistinctOnCycle(g: Graph, c: nat, p: nat, i: nat, j: nat)
    requires Closed(g) && c in g && Period(g, c, p) && i < j < p
    ensures Orbit(g, c, i).Some? && Orbit(g, c, j).Some? && Orbit(g, c, i) != Orbit(g, c, j)
  {
    OrbitPrefix(g, c, i, p);
    OrbitPrefix(g, c, j, p);
    if Orbit(g, c, i) == Orbit(g, c, j) {
      OrbitAdd(g, c, i, p - j);
      OrbitAdd(g, c, j, p - j);
    }
  }

  /** Every node on the cycle of c is a plain error. */
  ghost predicate PlainCycle(g: Graph, c: nat)
    requires Closed(g) && c in g
  {
    forall i: nat :: Orbit(g, c, i).Some? ==> g[Orbit(g, c, i).value].Plain?
  }

  /** The walk around the cycle of c, j steps in, comes back to c. */
  lemma AroundCycle(g: Graph, c: nat, p: nat, j: nat, visited: set<nat>)
    requires Closed(g) && c in g && Period(g, c, p) && PlainCycle(g, c) && j <= p && (j > 0 ==> c in visited)
    requires forall i: nat :: j <= i < p && Orbit(g, c, i).Some? ==> Orbit(g, c, i).value !in visited
    ensures Orbit(g, c, j).Some? && Yields(g, At(Orbit(g, c, j).value), visited, At(c))
    decreases p - j
  {
    OrbitPrefix(g, c, j, p);
    var x := Orbit(g, c, j).value;
    if j == p {
      assert Walk(g, At(x), visited, 1) == Some(At(c));
    } else {
      assert g[x].Plain?;
      OrbitPrefix(g, c, j + 1, p);
      assert Orbit(g, c, j + 1) == Succ(g, x);
      var next := Orbit(g, c, j + 1).value;
      if j + 1 < p { DistinctOnCycle(g, c, p, j, j + 1); }
      if next == x {
        assert x == c;
        assert Walk(g, At(x), visited, 1) == Some(At(c));
      } else {
        forall i: nat | j + 1 <= i < p && Orbit(g, c, i).Some?
          ensures Orbit(g, c, i).value !in visited + {x}
        {
          DistinctOnCycle(g, c, p, j, i);
        }
        assert Orbit(g, c, 0) == Some(c);
        AroundCycle(g, c, p, j + 1, visited + {x});
        YieldsStep(g, x, At(next), visited, At(c));
      }
    }
  }

  lemma OnCycle(g: Graph, c: nat, i: nat)
    requires Closed(g) && c in g && After(g, c, c)
    ensures Orbit(g, c, i).Some? && After(g, Orbit(g, c, i).value, Orbit(g, c, i).value)
  {
    CycleGoesOn(g, c, i);
    var p: nat :| p > 0 && Orbit(g, c, p) == Some(c);
    var v := Orbit(g, c, i).value;
    CycleGoesOn(g, c, i + p);
    OrbitAdd(g, c, p, i);
    OrbitAdd(g, c, i, p);
    assert Orbit(g, v, p) == Some(v);
  }

  /** From n the first node on a cycle is c, a steps away. */
  ghost predicate Enters(g: Graph, n: nat, a: nat, c: nat)
    requires Closed(g) && n in g && c in g
  {
    && Orbit(g, n, a) == Some(c) && After(g, c, c)
    && forall i: nat :: i < a && Orbit(g, n, i).Some? ==> !After(g, Orbit(g, n, i).value, Orbit(g, n, i).value)
  }

  lemma EntersNext(g: Graph, n: nat, a: nat, c: nat)
    requires Closed(g) && n in g && c in g && Enters(g, n, a, c) && a > 0
    ensures Succ(g, n).Some? && Enters(g, Succ(g, n).value, a - 1, c) && !After(g, n, n) && Succ(g, n).value != n
    ensures After(g, n, c)
  {
    assert Orbit(g, n, 0) == Some(n);
    assert Orbit(g, n, 1) == Succ(g, n);
    OrbitPrefix(g, n, 1, a);
    var m := Succ(g, n).value;
    AfterNext(g, n);
    OrbitAdd(g, n, 1, a - 1);
    forall i: nat | i < a - 1 && Orbit(g, m, i).Some?
      ensures !After(g, Orbit(g, m, i).value, Orbit(g, m, i).value)
    {
      OrbitAdd(g, n, 1, i);
    }
  }

  lemma WalkEnters(g: Graph, n: nat, a: nat, c: nat, visited: set<nat>)
    requires Closed(g) && n in g && c in g && Enters(g, n, a, c) && PlainCycle(g, c)
    requires forall v :: v in visited ==> v in g && After(g, v, n) && !After(g, v, v)
    ensures Yields(g, At(n), visited, At(c))
    decreases a
  {
    if a == 0 {
      var k: nat :| k > 0 && Orbit(g, c, k) == Some(c);
      var p := FindPeriod(g, c, k);
      forall i: nat | i < p && Orbit(g, c, i).Some?
        ensures Orbit(g, c, i).value !in visited
      {
        OnCycle(g, c, i);
      }
      assert Orbit(g, c, 0) == Some(c);
      AroundCycle(g, c, p, 0, visited);
    } else {
      EntersNext(g, n, a, c);
      AfterNext(g, n);
      var m := Succ(g, n).value;
      if g[n].Plain? {
        forall v | v in visited + {n}
          ensures v in g && After(g, v, m) && !After(g, v, v)
        {
          if v != n { AfterTransitive(g, v, n, m); }
        }
        WalkEnters(g, m, a - 1, c, visited + {n});
        YieldsStep(g, n, At(m), visited, At(c));
      } else {
        WalkEnters(g, m, a - 1, c, {});
        var fuel: nat :| Walk(g, At(m), {}, fuel) == Some(At(c));
        assert WrapperCause(g, n, fuel) == Some(At(c));
        forall v | v in visited + {n}
          ensures v in g && After(g, v, c) && !After(g, v, v)
        {
          if v != n { AfterTransitive(g, v, n, c); }
        }
        assert Orbit(g, c, 0) == Some(c);
        WalkEnters(g, c, 0, c, visited + {n});
        YieldsStep(g, n, At(c), visited, At(c));
      }
    }
  }

  lemma GroundedCycle(g: Graph, w: nat, c: nat)
    requires Closed(g) && w in g && c in g && Grounded(g, w) && After(g, w, c) && After(g, c, c)
    ensures PlainCycle(g, c)
  {
    forall i: nat | Orbit(g, c, i).Some?
      ensures g[Orbit(g, c, i).value].Plain?
    {
      var u := Orbit(g, c, i).value;
      OnCycle(g, c, i);
      assert Orbit(g, c, 0) == Some(c);
      if i > 0 {
        assert After(g, c, u);
        AfterTransitive(g, w, c, u);
      }
      if g[u].Leaf? { LeafEnds(g, u); }
    }
  }

  /** On a chain that runs into a cycle of plain errors exactly the first node of that cycle is returned. */
  lemma CauseAtCycle(g: Graph, w: nat, a: nat, c: nat, r: Ref)
    requires Closed(g) && w in g && g[w].Wrapper? && c in g && Grounded(g, w) && Enters(g, w, a, c)
    ensures Returns(g, w, r) <==> r == At(c)
  {
    assert Orbit(g, w, 0) == Some(w);
    assert a > 0;
    EntersNext(g, w, a, c);
    GroundedCycle(g, w, c);
    WalkEnters(g, Succ(g, w).value, a - 1, c, {});
    var fuel: nat :| Walk(g, At(Succ(g, w).value), {}, fuel) == Some(At(c));
    assert WrapperCause(g, w, fuel) == Some(At(c));
    if Returns(g, w, r) { ReturnsOnce(g, w, r, At(c)); }
  }

  lemma FirstCyclic(g: Graph, w: nat, k: nat) returns (j: nat, c: nat)
    requires Closed(g) && w in g && Orbit(g, w, k).Some? && After(g, Orbit(g, w, k).value, Orbit(g, w, k).value)
    ensures c in g && Enters(g, w, j, c)
    decreases k
  {
    if i: nat :| i < k && Orbit(g, w, i).Some? && After(g, Orbit(g, w, i).value, Orbit(g, w, i).value) {
      j, c := FirstCyclic(g, w, i);
    } else {
      j, c := k, Orbit(g, w, k).value;
    }
  }

  /** There is no third kind of chain: it ends, or it enters a cycle. */
  lemma EndsOrEnters(g: Graph, w: nat) returns (ends: bool, j: nat, c: nat)
    requires Closed(g) && w in g
    ensures ends ==> Orbit(g, w, j).Some? && Orbit(g, w, j + 1).None?
    ensures !ends ==> c in g && Enters(g, w, j, c)
  {
    var k: nat, n, passed: set<nat> := 0, w, {};
    while n !in passed && Succ(g, n).Some?
      invariant Orbit(g, w, k) == Some(n) && passed <= g.Keys
      invariant forall x :: x in passed ==> After(g, x, n)
      decreases g.Keys - passed
    {
      var m := Succ(g, n).value;
      AfterNext(g, n);
      forall x | x in passed + {n}
        ensures After(g, x, m)
      {
        if x != n { AfterTransitive(g, x, n, m); }
      }
      passed := passed + {n};
      n, k := m, k + 1;
    }
    if n in passed {
      ends := false;
      j, c := FirstCyclic(g, w, k);
    } else {
      ends, j, c := true, k, w;
    }
  }

  // ---- The method ----

  method Cause(g: Graph, w: nat) returns (r: Ref)
    requires Closed(g) && w in g && g[w].Wrapper? && Grounded(g, w)
    ensures Returns(g, w, r)
    decreases |Behind(g, w)|
  {
    if g[w].errors.None? {
      assert WrapperCause(g, w, 0) == Some(Fresh);
      return Fresh;
    }
    AfterNext(g, w);
    ghost var start := At(g[w].errors.value);
    var visited: set<nat> := {};
    var cause := At(g[w].errors.value);
    while cause.At? && cause.n !in visited
      invariant visited <= g.Keys
      invariant cause.At? ==> cause.n in Behind(g, w)
      invariant forall r :: Yields(g, cause, visited, r) ==> Yields(g, start, {}, r)
      decreases g.Keys - visited
    {
      var n := cause.n;
      if g[n].Leaf? {
        assert Walk(g, cause, visited, 1) == Some(cause);
        break;
      }
      var next: Ref;
      if g[n].Plain? {
        next := Pointer(g[n].next);
        if next.At? {
          AfterNext(g, n);
          AfterTransitive(g, w, n, next.n);
        }
      } else {
        GroundedBehind(g, w, n);
        SmallerSet(Behind(g, n), Behind(g, w));
        next := Cause(g, n);
        ghost var f: nat :| WrapperCause(g, n, f) == Some(next);
        CauseResult(g, n, f);
        if next.At? {
          AfterTransitive(g, w, n, next.n);
        }
      }
      if next == cause {
        assert Yields(g, cause, visited, cause) by {
          if g[n].Plain? {
            assert Walk(g, cause, visited, 1) == Some(cause);
          }
        }
        break;
      }
      forall r | Yields(g, next, visited + {n}, r)
        ensures Yields(g, cause, visited, r)
      {
        YieldsStep(g, n, next, visited, r);
      }
      visited := visited + {n};
      cause := next;
    }
    r := cause;
    assert Yields(g, cause, visited, r) by {
      if !cause.At? || cause.n in visited {
        assert Walk(g, cause, visited, 1) == Some(r);
      }
    }
    ghost var fuel: nat :| Walk(g, start, {}, fuel) == Some(r);
    assert WrapperCause(g, w, fuel) == Some(r);
  }
}
