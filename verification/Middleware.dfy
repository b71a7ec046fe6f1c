/** middleware.go: the Recovery and Logger writers stacked over the connection's writer. */
module Middleware {
  import opened Values

  // ---- The connection's writer ----

  /**
   * Status line sent, body bytes accepted, and the heads that came too late; flusher tells whether Flush is
   * supported.
   */
  datatype Base = Base(committed: Option<int>, bytes: nat, superfluous: nat, flusher: bool)

  const FRESH: Base := Base(None, 0, 0, true)

  /** An informational head (section 15.2 of RFC 9110) goes out ahead of the final one; 101 is final. */
  predicate Informational(code: int) {
    100 <= code <= 199 && code != 101
  }

  predicate ValidCode(code: int) {
    100 <= code <= 999
  }

  /** WriteHeader of net/http: a late head is ignored, an impossible code panics. */
  predicate HeadPanics(b: Base, code: int) {
    b.committed.None? && !ValidCode(code)
  }

  function BaseHead(b: Base, code: int): Base {
    if b.committed.Some? then b.(superfluous := b.superfluous + 1)
    else if !ValidCode(code) || Informational(code) then b
    else b.(committed := Some(code))
  }

  function BaseWrite(b: Base, accepted: nat): Base {
    b.(committed := if b.committed.Some? then b.committed else Some(200), bytes := b.bytes + accepted)
  }

  function BaseFlush(b: Base): Base {
    if b.flusher && b.committed.None? then b.(committed := Some(200)) else b
  }

  /** The server's end of a request: a response nobody started is an empty 200. */
  function FinalStatus(b: Base): int {
    if b.committed.Some? then b.committed.value else 200
  }

  // ---- The two trackers over it ----

  datatype Event = Head(code: int) | Body(accepted: nat) | Flush

  datatype Ending = Returned | Panicked | Aborted  // Aborted: a panic with http.ErrAbortHandler

  /** recoveryWriter.written, logWriter.status and logWriter.bytes, and the writer below. */
  datatype Stack = Stack(written: bool, status: int, logged: nat, base: Base)

  function LogHead(s: Stack, code: int): Stack {
    s.(status := if s.status == 0 then code else s.status, base := BaseHead(s.base, code))
  }

  function LogWrite(s: Stack, accepted: nat): Stack {
    s.(status := if s.status == 0 then 200 else s.status, logged := s.logged + accepted,
       base := BaseWrite(s.base, accepted))
  }

  function Apply(s: Stack, e: Event): Stack {
    match e
    case Head(code) => LogHead(s, code).(written := true)
    case Body(n) => LogWrite(s, n).(written := true)
    case Flush => s.(base := BaseFlush(s.base))
  }

  predicate Raises(s: Stack, e: Event) {
    e.Head? && HeadPanics(s.base, e.code)
  }

  /** The handler's events and how it ends; a head with an impossible code ends it early with a panic. */
  function Drive(s: Stack, evs: seq<Event>, ending: Ending): (Stack, Ending)
    decreases |evs|
  {
    if evs == [] then (s, ending)
    else if Raises(s, evs[0]) then (Apply(s, evs[0]), Panicked)
    else Drive(Apply(s, evs[0]), evs[1..], ending)
  }

  datatype Entry = Entry(status: int, bytes: nat)

  function LogEntry(s: Stack): Entry {
    Entry(if s.status == 0 then 200 else s.status, s.logged)
  }

  /** Recovery's reply through the log writer: a 500 head and the JSON body, of which accepted bytes are taken. */
  function Reply(s: Stack, accepted: nat): Stack {
    LogWrite(LogHead(s, 500), accepted)
  }

  predicate Replies(s: Stack, ending: Ending) {
    ending.Panicked? && !s.written
  }

  datatype Served = Served(base: Base, entry: Option<Entry>, aborted: bool)

  function Opened(flusher: bool): Stack {
    Stack(false, 0, 0, FRESH.(flusher := flusher))
  }

  /** The deferred function of Recovery, then the rest of Logger. */
  function Finish(r: (Stack, Ending), accepted: nat): Served {
    if r.1.Aborted? then Served(r.0.base, None, true)
    else
      var t := if Replies(r.0, r.1) then Reply(r.0, accepted) else r.0;
      Served(t.base, Some(LogEntry(t)), false)
  }

  /** Logger()(Recovery()(h)). */
  function Serve(flusher: bool, evs: seq<Event>, ending: Ending, accepted: nat): Served {
    Finish(Drive(Opened(flusher), evs, ending), accepted)
  }

  /** Recovery()(Logger()(h)): the panic passes through the logger, and the reply goes to the writer below it. */
  function ServeSwapped(flusher: bool, evs: seq<Event>, ending: Ending, accepted: nat): Served {
    var (s, end) := Drive(Opened(flusher), evs, ending);
    match end
    case Returned => Served(s.base, Some(LogEntry(s)), false)
    case Aborted => Served(s.base, None, true)
    case Panicked =>
      Served(if s.written then s.base else BaseWrite(BaseHead(s.base, 500), accepted), None, false)
  }

  // ---- The writers as objects ----

  class BaseWriter {
    var committed: Option<int>
    var bytes: nat
    var superfluous: nat
    const flusher: bool

    ghost function State(): Base
      reads this
    {
      Base(committed, bytes, superfluous, flusher)
    }

    constructor (flusher: bool)
      ensures State() == FRESH.(flusher := flusher)
    {
      this.flusher := flusher;
      committed, bytes, superfluous := None, 0, 0;
    }

    method WriteHeader(code: int) returns (panics: bool)
      modifies this
      ensures State() == BaseHead(old(State()), code) && panics == HeadPanics(old(State()), code)
    {
      panics := false;
      if committed.Some? {
        superfluous := superfluous + 1;
        return;
      }
      if code < 100 || code > 999 {
        return true;
      }
      if code <= 199 && code != 101 {
        return;
      }
      committed := Some(code);
    }

    method Write(accepted: nat)
      modifies this
      ensures State() == BaseWrite(old(State()), accepted)
    {
      if committed.None? {
        committed := Some(200);
      }
      bytes := bytes + accepted;
    }

    method FlushNow()
      modifies this
      ensures State() == BaseFlush(old(State()))
    {
      if flusher && committed.None? {
        committed := Some(200);
      }
    }
  }

  class LogWriter {
    const next: BaseWriter
    var status: int
    var bytes: nat

    constructor (next: BaseWriter)
      ensures this.next == next && status == 0 && bytes == 0
    {
      this.next := next;
      status, bytes := 0, 0;
    }

    method WriteHeader(code: int) returns (panics: bool)
      modifies this, next
      ensures next.State() == BaseHead(old(next.State()), code) && panics == HeadPanics(old(next.State()), code)
      ensures status == (if old(status) == 0 then code else old(status)) && bytes == old(bytes)
    {
      if status == 0 {
        status := code;
      }
      panics := next.WriteHeader(code);
    }

    method Write(accepted: nat)
      modifies this, next
      ensures next.State() == BaseWrite(old(next.State()), accepted)
      ensures status == (if old(status) == 0 then 200 else old(status)) && bytes == old(bytes) + accepted
    {
      if status == 0 {
        status := 200;
      }
      next.Write(accepted);
      bytes := bytes + accepted;
    }

    method FlushNow()
      modifies next
      ensures next.State() == BaseFlush(old(next.State()))
    {
      next.FlushNow();
    }
  }

  class RecoveryWriter {
    const next: LogWriter
    var written: bool

    ghost function State(): Stack
      reads this, next, next.next
    {
      Stack(written, next.status, next.bytes, next.next.State())
    }

    constructor (next: LogWriter)
      ensures this.next == next && !written
    {
      this.next := next;
      written := false;
    }

    method WriteHeader(code: int) returns (panics: bool)
      modifies this, next, next.next
      ensures State() == Apply(old(State()), Head(code)) && panics == Raises(old(State()), Head(code))
    {
      written := true;
      panics := next.WriteHeader(code);
    }

    method Write(accepted: nat)
      modifies this, next, next.next
      ensures State() == Apply(old(State()), Body(accepted))
    {
      written := true;
      next.Write(accepted);
    }

    method FlushNow()
      modifies next.next
      ensures State() == Apply(old(State()), Flush)
    {
      next.FlushNow();
    }

    /** next.ServeHTTP(rw, r), for the handler that does these events. */
    method ServeHTTP(evs: seq<Event>, ending: Ending) returns (end: Ending)
      modifies this, next, next.next
      ensures (State(), end) == Drive(old(State()), evs, ending)
    {
      var i := 0;
      while i < |evs|
        invariant 0 <= i <= |evs|
        invariant Drive(State(), evs[i..], ending) == Drive(old(State()), evs, ending)
      {
        assert evs[i..][1..] == evs[i + 1..];
        var panics := false;
        match evs[i] {
          case Head(code) => panics := WriteHeader(code);
          case Body(n) => Write(n);
          case Flush => FlushNow();
        }
        if panics {
          return Panicked;
        }
        i := i + 1;
      }
      end := ending;
    }
  }

  /** The handler that Recovery returns, under the log writer. */
  method Recover(rw: RecoveryWriter, evs: seq<Event>, ending: Ending, accepted: nat) returns (aborted: bool)
    modifies rw, rw.next, rw.next.next
    ensures var (s, end) := Drive(old(rw.State()), evs, ending);
            && aborted == end.Aborted?
            && rw.State() == if Replies(s, end) then Reply(s, accepted) else s
  {
    var end := rw.ServeHTTP(evs, ending);
    if end.Returned? {
      return false;
    }
    if end.Aborted? {
      return true;
    }
    if !rw.written {
      var w := rw.next;
      var panics := w.WriteHeader(500);
      w.Write(accepted);
    }
    aborted := false;
  }

  /** The handler that Logger returns, around Recovery. */
  method Log(base: BaseWriter, evs: seq<Event>, ending: Ending, accepted: nat)
    returns (entry: Option<Entry>, aborted: bool)
    requires base.State() == FRESH.(flusher := base.flusher)
    modifies base
    ensures Served(base.State(), entry, aborted) == Serve(base.flusher, evs, ending, accepted)
  {
    var lw := new LogWriter(base);
    var rw := new RecoveryWriter(lw);
    aborted := Recover(rw, evs, ending, accepted);
    if aborted {
      return None, true;
    }
    var code := lw.status;
    if code == 0 {
      code := 200;
    }
    entry := Some(Entry(code, lw.bytes));
  }

  // ---- What the trackers know ----

  predicate AllFlushes(evs: seq<Event>) {
    forall i :: 0 <= i < |evs| ==> evs[i].Flush?
  }

  /** A committed status is a final one. */
  predicate Proper(b: Base) {
    b.committed.Some? ==> ValidCode(b.committed.value) && !Informational(b.committed.value)
  }

  /** Body bytes are counted as accepted, and written says whether the handler did more than flush. */
  lemma {:induction false} Tracks(s: Stack, evs: seq<Event>, ending: Ending)
    ensures var (t, end) := Drive(s, evs, ending);
            && t.logged - s.logged == t.base.bytes - s.base.bytes
            && (t.written <==> s.written || !AllFlushes(evs))
            && (end == ending || (end == Panicked && t.written))
            && (s.status != 0 ==> t.status == s.status)
            && (s.base.committed.Some? ==> t.base.committed == s.base.committed)
            && (Proper(s.base) ==> Proper(t.base)) && t.base.flusher == s.base.flusher
    decreases |evs|
  {
    if evs != [] {
      if !Raises(s, evs[0]) {
        Tracks(Apply(s, evs[0]), evs[1..], ending);
      }
      assert AllFlushes(evs) <==> evs[0].Flush? && AllFlushes(evs[1..]);
    }
  }

  /** A handler that only flushes leaves both trackers at their start. */
  lemma {:induction false} FlushesOnly(s: Stack, evs: seq<Event>, ending: Ending)
    requires AllFlushes(evs)
    ensures Drive(s, evs, ending) == (s.(base := if evs == [] then s.base else BaseFlush(s.base)), ending)
    decreases |evs|
  {
    if evs != [] {
      FlushesOnly(Apply(s, evs[0]), evs[1..], ending);
    }
  }

  /** Recovery answers exactly when a panic other than the abort ends a handler that wrote neither head nor body. */
  lemma RepliesIff(flusher: bool, evs: seq<Event>, ending: Ending)
    ensures var (s, end) := Drive(Opened(flusher), evs, ending);
            Replies(s, end) <==> ending.Panicked? && AllFlushes(evs)
  {
    Tracks(Opened(flusher), evs, ending);
    if AllFlushes(evs) {
      FlushesOnly(Opened(flusher), evs, ending);
    }
  }

  /**
   * The answer is a 500 with its body, logged as such. It is also what the client gets, unless the handler flushed
   * before: then 200 is on the wire and the base writer is handed a second head.
   */
  lemma AnsweredPanic(flusher: bool, evs: seq<Event>, accepted: nat)
    requires AllFlushes(evs)
    ensures var v := Serve(flusher, evs, Panicked, accepted);
            var late := flusher && evs != [];
            && v.entry == Some(Entry(500, accepted)) && v.base.bytes == accepted
            && FinalStatus(v.base) == (if late then 200 else 500)
            && v.base.superfluous == (if late then 1 else 0)
  {
    FlushesOnly(Opened(flusher), evs, Panicked);
  }

  /** Recovery never hands the base writer a second head, except after a flush that nothing was written before. */
  lemma SecondHeadIff(flusher: bool, evs: seq<Event>, ending: Ending, accepted: nat)
    ensures var (s, end) := Drive(Opened(flusher), evs, ending);
            Serve(flusher, evs, ending, accepted).base.superfluous > s.base.superfluous <==>
            ending.Panicked? && AllFlushes(evs) && flusher && evs != []
  {
    RepliesIff(flusher, evs, ending);
    if AllFlushes(evs) {
      FlushesOnly(Opened(flusher), evs, ending);
    }
  }

  /** The logged byte count is what the base writer accepted, the reply included. */
  lemma BytesAgree(flusher: bool, evs: seq<Event>, ending: Ending, accepted: nat)
    ensures var v := Serve(flusher, evs, ending, accepted);
            && (v.entry.None? <==> v.aborted)
            && (v.entry.Some? ==> v.entry.value.bytes == v.base.bytes)
  {
    Tracks(Opened(flusher), evs, ending);
  }

  // ---- The served request, read off the handler's events ----

  /** What an event commits if nothing was committed before. */
  function Commits(flusher: bool, e: Event): Option<int> {
    match e
    case Head(code) => if code == 101 || 200 <= code <= 999 then Some(code) else None
    case Body(_) => Some(200)
    case Flush => if flusher then Some(200) else None
  }

  predicate Impossible(e: Event) {
    e.Head? && !(100 <= e.code <= 999)
  }

  /** The events that happen: an impossible head ends the handler while nothing is committed. */
  function Happening(flusher: bool, evs: seq<Event>): seq<Event> {
    if evs == [] || Commits(flusher, evs[0]).Some? then evs
    else if Impossible(evs[0]) then [evs[0]]
    else [evs[0]] + Happening(flusher, evs[1..])
  }

  predicate Cut(flusher: bool, evs: seq<Event>) {
    evs != [] && Commits(flusher, evs[0]).None? && (Impossible(evs[0]) || Cut(flusher, evs[1..]))
  }

  function FirstCommit(flusher: bool, evs: seq<Event>): Option<int> {
    if evs == [] then None
    else if Commits(flusher, evs[0]).Some? then Commits(flusher, evs[0])
    else FirstCommit(flusher, evs[1..])
  }

  function BodyBytes(evs: seq<Event>): nat {
    if evs == [] then 0 else (if evs[0].Body? then evs[0].accepted else 0) + BodyBytes(evs[1..])
  }

  /** The first head, whatever its code but 0, or 200 if a body comes first; 0 if there is neither. */
  function FirstRecord(evs: seq<Event>): int {
    if evs == [] then 0
    else if evs[0].Body? then 200
    else if evs[0].Head? && evs[0].code != 0 then evs[0].code
    else FirstRecord(evs[1..])
  }

  lemma {:induction false} DriveCommitted(s: Stack, evs: seq<Event>, ending: Ending)
    requires s.base.committed.Some?
    ensures var (t, end) := Drive(s, evs, ending);
            && end == ending && t.base.committed == s.base.committed && t.base.bytes == s.base.bytes + BodyBytes(evs)
            && t.status == if s.status != 0 then s.status else FirstRecord(evs)
    decreases |evs|
  {
    if evs != [] {
      DriveCommitted(Apply(s, evs[0]), evs[1..], ending);
    }
  }

  lemma HappeningNext(flusher: bool, evs: seq<Event>)
    requires evs != [] && Commits(flusher, evs[0]).None? && !Impossible(evs[0])
    ensures var hs := Happening(flusher, evs);
            && BodyBytes(hs) == BodyBytes(Happening(flusher, evs[1..]))
            && FirstCommit(flusher, hs) == FirstCommit(flusher, Happening(flusher, evs[1..]))
            && FirstRecord(hs) == if evs[0].Head? && evs[0].code != 0 then evs[0].code
                                  else FirstRecord(Happening(flusher, evs[1..]))
  {
    assert Happening(flusher, evs)[1..] == Happening(flusher, evs[1..]);
  }

  lemma {:induction false} DriveReads(s: Stack, evs: seq<Event>, ending: Ending)
    requires s.base.committed.None?
    ensures var (t, end) := Drive(s, evs, ending);
            var hs := Happening(s.base.flusher, evs);
            && end == (if Cut(s.base.flusher, evs) then Panicked else ending)
            && t.base.committed == FirstCommit(s.base.flusher, hs) && t.base.bytes == s.base.bytes + BodyBytes(hs)
            && t.status == if s.status != 0 then s.status else FirstRecord(hs)
    decreases |evs|
  {
    if evs != [] {
      var t := Apply(s, evs[0]);
      if Raises(s, evs[0]) {
        assert [evs[0]][1..] == [];
      } else if t.base.committed.Some? {
        DriveCommitted(t, evs[1..], ending);
      } else {
        HappeningNext(s.base.flusher, evs);
        DriveReads(t, evs[1..], ending);
      }
    }
  }

  /**
   * What a client gets and what is logged, for every handler: the first final head, or 200 where a body or an effective
   * flush comes first, and the body bytes; or the 500 of the answer. The log has the first head instead, final or not.
   */
  lemma ServeReads(flusher: bool, evs: seq<Event>, ending: Ending, accepted: nat)
    ensures var v := Serve(flusher, evs, ending, accepted);
            var hs := Happening(flusher, evs);
            var answered := ending.Panicked? && AllFlushes(evs);
            && v.aborted == (ending.Aborted? && !Cut(flusher, evs))
            && v.base.bytes == BodyBytes(hs) + (if answered then accepted else 0)
            && FinalStatus(v.base) == (if FirstCommit(flusher, hs).Some? then FirstCommit(flusher, hs).value
                                       else if answered then 500 else 200)
            && (!v.aborted ==>
                  v.entry == Some(Entry(if answered then 500 else if FirstRecord(hs) != 0 then FirstRecord(hs) else 200,
                                        v.base.bytes)))
  {
    DriveReads(Opened(flusher), evs, ending);
    RepliesIff(flusher, evs, ending);
    BytesAgree(flusher, evs, ending, accepted);
    if AllFlushes(evs) { FlushesOnly(Opened(flusher), evs, ending); }
  }

  // ---- When the logged status is the committed one ----

  /** After a flush the status on the wire is 200; written says whether a head came since. */
  predicate FaithfulAfterFlush(evs: seq<Event>, ending: Ending, written: bool) {
    if evs == [] then written || !ending.Panicked?
    else
      match evs[0]
      case Body(_) => true
      case Head(c) => c == 200 || (c == 0 && FaithfulAfterFlush(evs[1..], ending, true))
      case Flush => FaithfulAfterFlush(evs[1..], ending, written)
  }

  /**
   * The handler's first head, if it comes before any body, is a final status (or the 0 that panics unrecorded), and
   * 200 if it comes after a flush; and it does not panic with nothing but a flush behind it.
   */
  predicate Faithful(flusher: bool, evs: seq<Event>, ending: Ending) {
    if evs == [] then true
    else
      match evs[0]
      case Body(_) => true
      case Head(c) => c == 0 || (ValidCode(c) && !Informational(c))
      case Flush => if flusher then FaithfulAfterFlush(evs[1..], ending, false) else Faithful(flusher, evs[1..], ending)
  }

  predicate Agrees(v: Served) {
    v.entry.Some? ==> v.entry.value.status == FinalStatus(v.base)
  }

  /** A recorded status is kept, and compared with the status the response ends up with. */
  lemma RecordedStatus(s: Stack, evs: seq<Event>, ending: Ending, accepted: nat)
    requires s.status != 0 && s.written && Proper(s.base) && !ending.Aborted?
    ensures var v := Finish(Drive(s, evs, ending), accepted);
            && (s.base.committed.Some? ==> (Agrees(v) <==> s.status == s.base.committed.value))
            && (s.base.committed.None? && Informational(s.status) ==> !Agrees(v))
  {
    Tracks(s, evs, ending);
  }

  lemma {:induction false} AgreesAfterFlush(s: Stack, evs: seq<Event>, ending: Ending, accepted: nat)
    requires s.status == 0 && s.base.committed == Some(200) && !ending.Aborted?
    ensures Agrees(Finish(Drive(s, evs, ending), accepted)) <==> FaithfulAfterFlush(evs, ending, s.written)
    decreases |evs|
  {
    if evs != [] {
      var t := Apply(s, evs[0]);
      if t.status == 0 {
        AgreesAfterFlush(t, evs[1..], ending, accepted);
      } else {
        RecordedStatus(t, evs[1..], ending, accepted);
      }
    }
  }

  /** For every trace that is not aborted: the logged status is the committed one exactly for faithful handlers. */
  lemma {:induction false} StatusAgreesIff(flusher: bool, evs: seq<Event>, ending: Ending, accepted: nat)
    requires !ending.Aborted?
    ensures Agrees(Serve(flusher, evs, ending, accepted)) <==> Faithful(flusher, evs, ending)
    decreases |evs|
  {
    var s := Opened(flusher);
    if evs != [] {
      var t := Apply(s, evs[0]);
      if Raises(s, evs[0]) {
        assert Drive(s, evs, ending) == (t, Panicked);
      } else if evs[0].Flush? {
        if flusher {
          AgreesAfterFlush(t, evs[1..], ending, accepted);
        } else {
          assert t == s;
          StatusAgreesIff(flusher, evs[1..], ending, accepted);
        }
      } else {
        RecordedStatus(t, evs[1..], ending, accepted);
      }
    }
  }

  /** With no flush and only final heads every handler is faithful. */
  lemma PlainHandlersFaithful(flusher: bool, evs: seq<Event>, ending: Ending)
    requires forall i :: 0 <= i < |evs| ==>
               !evs[i].Flush? && (evs[i].Head? ==> ValidCode(evs[i].code) && !Informational(evs[i].code))
    ensures Faithful(flusher, evs, ending)
  {
    if evs != [] {
      assert !evs[0].Flush?;
    }
  }

  // ---- The order of the two middlewares ----

  /** Both orders send the same response; with Recovery outside, a request whose handler panics is not logged at all. */
  lemma OrderMatters(flusher: bool, evs: seq<Event>, ending: Ending, accepted: nat)
    ensures var v, w := Serve(flusher, evs, ending, accepted), ServeSwapped(flusher, evs, ending, accepted);
            && v.base == w.base && v.aborted == w.aborted
            && (w.entry.Some? ==> w.entry == v.entry)
            && (w.entry.None? <==> Drive(Opened(flusher), evs, ending).1 != Returned)
            && (v.entry.None? <==> Drive(Opened(flusher), evs, ending).1 == Aborted)
  {
  }
}
