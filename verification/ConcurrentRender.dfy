/** Respond called by any number of goroutines: the double-checked cache under a sync.RWMutex, step by step. */
module ConcurrentRender {
  import opened Values
  import opened Library
  import opened Envelope
  import opened Outcome

  /** Program counter and local variables of one goroutine inside Respond. */
  datatype Thread =
    | Start
    | Hashed(h: Hash)                 // about to take the read lock
    | Reading(h: Hash)                // holds the read lock
    | Missed(h: Hash)                 // about to take the write lock
    | Writing(h: Hash)                // holds the write lock, about to check again
    | Building(h: Hash)               // holds the write lock, missed again
    | Built(h: Hash, m: Dict)         // holds the write lock, about to store
    | Done(m: Dict)

  /** What hash256Complex and build compute from the current fields; nothing is written into the built map here. */
  datatype Fields = Fields(key: Hash, built: Dict)

  function FieldsOf(rt: Runtime, s: State): Fields {
    Fields(CacheKey(rt, s), Build(rt, s))
  }

  /** The wrapper, its lock and the goroutines; builds counts the calls to build. */
  datatype World = World(now: Fields, cached: Option<Dict>, hash: Hash,
                         readers: set<nat>, writer: Option<nat>, threads: seq<Thread>, builds: nat)

  predicate HoldsRead(t: Thread) { t.Reading? }
  predicate HoldsWrite(t: Thread) { t.Writing? || t.Building? || t.Built? }

  predicate CacheHit(w: World, h: Hash) {
    w.hash == h && w.cached.Some?
  }

  /** Goroutine i can take its next step: it is not done and not blocked on the lock. */
  predicate Enabled(w: World, i: nat)
    requires i < |w.threads|
  {
    match w.threads[i]
    case Done(_) => false
    case Hashed(_) => w.writer.None?
    case Missed(_) => w.writer.None? && w.readers == {}
    case _ => true
  }

  /** The next step of goroutine i. */
  function Next(w: World, i: nat): World
    requires i < |w.threads| && Enabled(w, i)
  {
    match w.threads[i]
    case Start => w.(threads := w.threads[i := Hashed(w.now.key)])
    case Hashed(h) => w.(readers := w.readers + {i}, threads := w.threads[i := Reading(h)])
    case Reading(h) =>
      w.(readers := w.readers - {i},
         threads := w.threads[i := if CacheHit(w, h) then Done(w.cached.value) else Missed(h)])
    case Missed(h) => w.(writer := Some(i), threads := w.threads[i := Writing(h)])
    case Writing(h) =>
      if CacheHit(w, h) then w.(writer := None, threads := w.threads[i := Done(w.cached.value)])
      else w.(threads := w.threads[i := Building(h)])
    case Building(h) => w.(builds := w.builds + 1, threads := w.threads[i := Built(h, w.now.built)])
    case Built(h, m) => w.(cached := Some(m), hash := h, writer := None, threads := w.threads[i := Done(m)])
  }

  /** A schedule names the goroutine that moves; a blocked or finished one lets the turn pass. */
  function Turn(w: World, i: nat): World {
    if i < |w.threads| && Enabled(w, i) then Next(w, i) else w
  }

  function Execute(w: World, schedule: seq<nat>): World {
    if schedule == [] then w
    else Turn(Execute(w, schedule[..|schedule| - 1]), schedule[|schedule| - 1])
  }

  // ---- Safety ----

  /** Nobody inside Respond, and a cache that is right if it has the current key. */
  predicate Initial(w: World) {
    && w.readers == {} && w.writer.None? && w.builds == 0
    && (forall i :: 0 <= i < |w.threads| ==> w.threads[i] == Start)
    && (CacheHit(w, w.now.key) ==> w.cached == Some(w.now.built))
  }

  /** What goroutine t may hold, given the key h, the fresh map m and whether the cache has been filled. */
  predicate ThreadOk(t: Thread, h: Hash, m: Dict) {
    match t
    case Start => true
    case Done(d) => d == m
    case Built(k, d) => k == h && d == m
    case _ => t.h == h
  }

  /** Readers and writer are the goroutines that hold the lock, and a writer is alone. */
  ghost predicate LockSafe(w: World) {
    && (forall i :: 0 <= i < |w.threads| ==> (i in w.readers <==> HoldsRead(w.threads[i])))
    && (forall i :: 0 <= i < |w.threads| ==> (w.writer == Some(i) <==> HoldsWrite(w.threads[i])))
    && (forall i :: i in w.readers ==> i < |w.threads|)
    && (w.writer.Some? ==> w.writer.value < |w.threads| && w.readers == {})
  }

  /** What is held or stored under the current key is the fresh map. */
  ghost predicate MapSafe(w: World) {
    var h, m := w.now.key, w.now.built;
    && (forall i :: 0 <= i < |w.threads| ==> ThreadOk(w.threads[i], h, m))
    && (CacheHit(w, h) ==> w.cached == Some(m))
  }

  /** build has run only for the map that is or will be stored. */
  ghost predicate BuildSafe(w: World) {
    && w.builds <= 1
    && (forall i :: 0 <= i < |w.threads| && w.threads[i].Building? ==> w.builds == 0)
    && (w.builds == 1 ==> CacheHit(w, w.now.key) || exists i :: 0 <= i < |w.threads| && w.threads[i].Built?)
  }

  ghost predicate Safe(w: World) {
    LockSafe(w) && MapSafe(w) && BuildSafe(w)
  }

  lemma SafeInitially(w: World)
    requires Initial(w)
    ensures Safe(w)
  {
  }

  lemma LockKept(w: World, i: nat)
    requires LockSafe(w)
    ensures LockSafe(Turn(w, i)) && Turn(w, i).now == w.now && |Turn(w, i).threads| == |w.threads|
  {
  }

  lemma MapKept(w: World, i: nat)
    requires MapSafe(w)
    ensures MapSafe(Turn(w, i))
  {
  }

  lemma BuildKept(w: World, i: nat)
    requires Safe(w)
    ensures BuildSafe(Turn(w, i))
  {
    var v := Turn(w, i);
    if i < |w.threads| && Enabled(w, i) {
      if w.builds == 1 && !CacheHit(w, w.now.key) {
        var j :| 0 <= j < |w.threads| && w.threads[j].Built?;
        assert w.writer == Some(j);
        if j != i {
          assert v.threads[j].Built?;
        }
      }
      if w.threads[i].Building? {
        assert v.threads[i].Built?;
      }
    }
  }

  lemma SafeKept(w: World, i: nat)
    requires Safe(w)
    ensures Safe(Turn(w, i)) && Turn(w, i).now == w.now && |Turn(w, i).threads| == |w.threads|
  {
    LockKept(w, i);
    MapKept(w, i);
    BuildKept(w, i);
  }

  lemma {:induction false} SafeRun(w: World, schedule: seq<nat>)
    requires Safe(w)
    ensures var v := Execute(w, schedule);
            Safe(v) && v.now == w.now && |v.threads| == |w.threads|
    decreases |schedule|
  {
    if schedule != [] {
      SafeRun(w, schedule[..|schedule| - 1]);
      SafeKept(Execute(w, schedule[..|schedule| - 1]), schedule[|schedule| - 1]);
    }
  }

  /**
   * For any number of goroutines and any schedule on an adjusted wrapper whose fields do not change: build runs
   * at most once, nobody holds the write lock beside another holder, and every call returns the fresh map.
   * autoAdjust and the lazy StatusCode change nothing on such a wrapper, so they are not steps here.
   */
  lemma RespondConcurrently(rt: Runtime, s: State, seed: Seed, w: World, schedule: seq<nat>)
    requires Settled(s) && ResolveStatus(s) == s
    requires w.now == FieldsOf(rt, s) && Initial(w)
    ensures Rendering(rt, s, seed) == s
    ensures var v := Execute(w, schedule);
            && v.builds <= 1
            && (forall i :: 0 <= i < |v.threads| && v.threads[i].Done? ==> v.threads[i].m == Build(rt, s))
            && (forall i, j :: 0 <= i < |v.threads| && 0 <= j < |v.threads| && i != j && HoldsWrite(v.threads[i]) ==>
                  !HoldsWrite(v.threads[j]) && !HoldsRead(v.threads[j]))
  {
    AdjustEffects(rt, s, seed);
    SafeInitially(w);
    SafeRun(w, schedule);
  }

  // ---- Progress ----

  function Remaining(t: Thread): nat {
    match t
    case Start => 7
    case Hashed(_) => 6
    case Reading(_) => 5
    case Missed(_) => 4
    case Writing(_) => 3
    case Building(_) => 2
    case Built(_, _) => 1
    case Done(_) => 0
  }

  function Work(ts: seq<Thread>): nat {
    if ts == [] then 0 else Remaining(ts[0]) + Work(ts[1..])
  }

  lemma {:induction false} WorkUpdate(ts: seq<Thread>, i: nat, t: Thread)
    requires i < |ts|
    ensures Work(ts[i := t]) == Work(ts) - Remaining(ts[i]) + Remaining(t)
    decreases i
  {
    if i == 0 {
      assert ts[0 := t][1..] == ts[1..];
    } else {
      assert ts[i := t][1..] == ts[1..][i - 1 := t];
      WorkUpdate(ts[1..], i - 1, t);
    }
  }

  /** Every step of an enabled goroutine uses up work, so no run has more than 7 steps for each goroutine. */
  lemma StepUsesWork(w: World, i: nat)
    requires i < |w.threads| && Enabled(w, i)
    ensures Work(Next(w, i).threads) < Work(w.threads)
  {
    WorkUpdate(w.threads, i, Next(w, i).threads[i]);
  }

  /** Nobody waits forever: while a goroutine is inside Respond, some goroutine can move. */
  lemma NoDeadlock(w: World)
    requires Safe(w)
    requires exists i :: 0 <= i < |w.threads| && !w.threads[i].Done?
    ensures exists i: nat :: i < |w.threads| && Enabled(w, i)
  {
    var i :| 0 <= i < |w.threads| && !w.threads[i].Done?;
    if w.writer.Some? {
      var j := w.writer.value;
      assert HoldsWrite(w.threads[j]);
      assert Enabled(w, j);
    } else if w.readers != {} {
      var j :| j in w.readers;
      assert HoldsRead(w.threads[j]);
      assert Enabled(w, j);
    } else {
      assert Enabled(w, i);
    }
  }

  lemma {:induction false} ExecuteFirst(w: World, i: nat, rest: seq<nat>)
    ensures Execute(w, [i] + rest) == Execute(Turn(w, i), rest)
    decreases |rest|
  {
    var s := [i] + rest;
    if rest == [] {
      assert s[..|s| - 1] == [];
    } else {
      assert s[..|s| - 1] == [i] + rest[..|rest| - 1];
      ExecuteFirst(w, i, rest[..|rest| - 1]);
    }
  }

  /** From any safe world some schedule lets every call return. */
  lemma {:induction false} EveryCallCanReturn(w: World) returns (schedule: seq<nat>)
    requires Safe(w)
    ensures var v := Execute(w, schedule);
            forall i :: 0 <= i < |v.threads| ==> v.threads[i] == Done(w.now.built)
    decreases Work(w.threads)
  {
    if forall i :: 0 <= i < |w.threads| ==> w.threads[i].Done? {
      schedule := [];
    } else {
      NoDeadlock(w);
      var i: nat :| i < |w.threads| && Enabled(w, i);
      SafeKept(w, i);
      StepUsesWork(w, i);
      var rest := EveryCallCanReturn(Next(w, i));
      schedule := [i] + rest;
      ExecuteFirst(w, i, rest);
    }
  }

  // ---- Fields must not change ----

  lemma ThreeOf(w: World, i: nat)
    ensures Execute(w, [i, i, i]) == Turn(Turn(Turn(w, i), i), i)
  {
    ExecuteFirst(w, i, [i, i]);
    ExecuteFirst(Turn(w, i), i, [i]);
    ExecuteFirst(Turn(Turn(w, i), i), i, []);
    assert [i] + [i, i] == [i, i, i] && [i] + [i] == [i, i] && [i] + [] == [i];
  }

  lemma MissTwice(v: World)
    requires |v.threads| == 2 && v.threads[0].Hashed? && v.threads[1] == Start
    requires v.readers == {} && v.writer.None? && v.cached.None?
    ensures var u := Execute(v, [0, 0, 0]);
            && u.threads == [Writing(v.threads[0].h), Start] && u.now == v.now
            && u.readers == {} && u.writer == Some(0) && u.cached.None?
  {
    ThreeOf(v, 0);
  }

  lemma BuildAndStore(v: World)
    requires |v.threads| == 2 && v.threads[0].Writing? && v.threads[1] == Start
    requires v.readers == {} && v.cached.None?
    ensures var u := Execute(v, [0, 0, 0]);
            && u.threads == [Done(v.now.built), Start] && u.hash == v.threads[0].h
            && u.readers == {} && u.writer.None? && u.cached == Some(v.now.built)
  {
    ThreeOf(v, 0);
  }

  lemma {:induction false} ExecuteSplits(w: World, a: seq<nat>, b: seq<nat>)
    ensures Execute(w, a + b) == Execute(Execute(w, a), b)
    decreases |b|
  {
    if b == [] {
      assert a + b == a;
    } else {
      assert (a + b)[..|a + b| - 1] == a + b[..|b| - 1];
      ExecuteSplits(w, a, b[..|b| - 1]);
    }
  }

  lemma SixTurns(v: World)
    requires |v.threads| == 2 && v.threads[0].Hashed? && v.threads[1] == Start
    requires v.readers == {} && v.writer.None? && v.cached.None?
    ensures var u := Execute(v, [0, 0, 0, 0, 0, 0]);
            && u.cached == Some(v.now.built) && u.hash == v.threads[0].h && u.readers == {} && u.writer.None?
            && u.threads == [Done(v.now.built), Start]
  {
    MissTwice(v);
    BuildAndStore(Execute(v, [0, 0, 0]));
    assert [0, 0, 0] + [0, 0, 0] == [0, 0, 0, 0, 0, 0];
    ExecuteSplits(v, [0, 0, 0], [0, 0, 0]);
  }

  lemma ThreeTurns(u: World)
    requires |u.threads| == 2 && u.threads[1] == Start && u.readers == {} && u.writer.None?
    requires u.cached.Some? && u.hash == u.now.key
    ensures var v := Execute(u, [1, 1, 1]);
            v.threads == u.threads[1 := Done(u.cached.value)] && v.hash == u.hash && v.now == u.now
  {
    ThreeOf(u, 1);
  }

  /**
   * If the fields change between the hash and the build, the old key is stored with the map of the new fields; a
   * later call on a wrapper that has the old fields again then returns the wrong map. Any two contents will do, as long
   * as the change is not a write into a map that the built map refers to.
   */
  lemma ChangePairsKeyWithWrongMap(w: World, other: Fields)
    requires Initial(w) && w.threads == [Start, Start] && w.cached.None?
    ensures var hashed := Execute(w, [0]);
            var stored := Execute(hashed.(now := other), [0, 0, 0, 0, 0, 0]);
            var later := Execute(stored.(now := w.now), [1, 1, 1]);
            later.now.key == later.hash && later.threads == [Done(other.built), Done(other.built)]
  {
    var hashed := Turn(w, 0);
    assert Execute(w, [0]) == hashed by { ExecuteFirst(w, 0, []); assert [0] + [] == [0]; }
    SixTurns(hashed.(now := other));
    ThreeTurns(Execute(hashed.(now := other), [0, 0, 0, 0, 0, 0]).(now := w.now));
  }
}
