/** norm.go: NormAll as a rewriting of the wrapper's fields with a change counter. */
module Normalize {
  import opened Values
  import opened Library
  import opened Parts
  import opened Pages
  import opened Envelope
  import opened Wrappers

  /** What one NormAll draws at random or reads from the clock: one delta value for each stage that may signal. */
  datatype Draws = Draws(requestID: string, now: Instant, hsc: Decimal, metas: Decimal, body: Decimal, paging: Decimal,
                         text: Decimal, debugs: Decimal)

  predicate Usable(d: Draws) {
    !IsEmpty(d.requestID) && d.now != 0
  }

  // ---- The stages ----

  /** RandDeltaValue, when the stage has something to signal. */
  function Signal(s: State, changed: bool, delta: Decimal): State {
    if changed then s.(meta := Some(EditMeta(s.meta, MetaDelta(delta)))) else s
  }

  function HeaderOf(rt: Runtime, code: Int64): Header {
    Header(ClampCode(code), rt.statusText(code), "", "")
  }

  predicate HscSignals(s: State) {
    if s.header.Some? then s.statusCode <= 0 || s.statusCode != s.header.value.code else s.statusCode > 0
  }

  function NormHSC(rt: Runtime, s: State, delta: Decimal): State {
    var t := if s.header.Some? then s.(statusCode := s.header.value.code)
             else if s.statusCode > 0 then s.(header := Some(HeaderOf(rt, s.statusCode)))
             else s;
    Signal(t, HscSignals(s), delta)
  }

  function FillMeta(m: Meta, d: Draws): Meta {
    m.(locale := if IsEmpty(m.locale) then "en_US" else m.locale,
       apiVersion := if IsEmpty(m.apiVersion) then "v0.0.1" else m.apiVersion,
       requestID := if IsEmpty(m.requestID) then d.requestID else m.requestID,
       requestedTime := if m.requestedTime == 0 then d.now else m.requestedTime)
  }

  predicate MetaSignals(s: State) {
    s.meta.None? || IsEmpty(s.meta.value.locale) || IsEmpty(s.meta.value.apiVersion) || IsEmpty(s.meta.value.requestID)
    || s.meta.value.requestedTime == 0
  }

  function NormMeta(s: State, d: Draws): State {
    Signal(s.(meta := Some(FillMeta(if s.meta.Some? then s.meta.value else EMPTY_META, d))), MetaSignals(s), d.metas)
  }

  /** The length of a payload whose slice type NormBody lists; a Go slice has at most MAX_INT elements. */
  function CountedLength(b: Body): Int64 {
    var n := if b.Items? then |b.items| else if b.Bytes? then |b.s| else 0;
    if n > MAX_INT then MAX_INT else n
  }

  function TotalOf(s: State): Int64 {
    var t := if s.total == 0 then CountedLength(s.data) else s.total;
    if s.pagination.Some? && s.pagination.value.totalItems > 0 && t == 0 then s.pagination.value.totalItems else t
  }

  function PagesOf(s: State): Option<PageState> {
    if s.pagination.Some? && s.pagination.value.totalItems == 0 && TotalOf(s) > 0
    then Some(ApplyPage(s.pagination.value, SetTotalItems(TotalOf(s))))
    else s.pagination
  }

  predicate BodySignals(s: State) {
    || (s.total == 0 && CountedLength(s.data) > 0)
    || (s.pagination.Some? && s.pagination.value.totalItems > 0 && s.total == 0)
    || (s.pagination.Some? && s.pagination.value.totalItems == 0 && TotalOf(s) > 0)
  }

  function NormBody(s: State, delta: Decimal): State {
    Signal(s.(total := TotalOf(s), pagination := PagesOf(s)), BodySignals(s), delta)
  }

  function NormPaging(s: State, delta: Decimal): State {
    if s.pagination.None? then s
    else Signal(s.(pagination := Some(Norm(s.pagination.value))), true, delta)
  }

  function ClassName(code: int): string {
    if 100 <= code <= 199 then "Informational"
    else if IsSuccess(code) then "Successful"
    else if 300 <= code <= 399 then "Redirection"
    else if 400 <= code <= 499 then "Client Error"
    else if 500 <= code <= 599 then "Server Error"
    else ""
  }

  predicate MessageSignals(s: State) {
    IsEmpty(s.message) && 100 <= s.statusCode <= 599
  }

  function NormMessage(s: State, delta: Decimal): State {
    Signal(s.(message := if MessageSignals(s) then ClassName(s.statusCode) else s.message), MessageSignals(s), delta)
  }

  function Meaningful(m: Dict): Dict {
    map k | k in m && m[k] != Null :: m[k]
  }

  predicate HasNil(m: Dict) {
    exists k :: k in m && m[k] == Null
  }

  function NormDebug(s: State, delta: Decimal): State {
    Signal(s.(debug := Meaningful(s.debug)), HasNil(s.debug), delta)
  }

  /** NormAll up to NormBody, and from NormPaging on. */
  function NormHead(rt: Runtime, s: State, d: Draws): State {
    NormBody(NormMeta(NormHSC(rt, s, d.hsc), d), d.body)
  }

  function NormTail(s: State, d: Draws): State {
    NormDebug(NormMessage(NormPaging(s, d.paging), d.text), d.debugs)
  }

  function NormAll(rt: Runtime, s: State, d: Draws): State {
    NormTail(NormHead(rt, s, d), d)
  }

  // ---- The methods ----

  method SignalChange(w: Wrapper, hasChanges: bool, delta: Decimal)
    modifies w`meta, w`custom
    ensures w.Fields() == Signal(old(w.Fields()), hasChanges, delta) && w.Cached() == old(w.Cached())
  {
    if hasChanges {
      w.NeedMeta();
      w.EditPlainMeta(MetaDelta(delta));
    }
  }

  method RunHSC(w: Wrapper, rt: Runtime, delta: Decimal)
    modifies w`statusCode, w`header, w`meta, w`custom
    ensures w.Fields() == NormHSC(rt, old(w.Fields()), delta) && w.Cached() == old(w.Cached())
  {
    var hasChanges := false;
    if w.statusCode <= 0 && w.header.Some? {
      w.statusCode := w.header.value.code;
      hasChanges := true;
    } else if w.header.None? && w.statusCode > 0 {
      w.header := Some(HeaderOf(rt, w.statusCode));
      hasChanges := true;
    } else if w.statusCode > 0 && w.header.Some? && w.statusCode != w.header.value.code {
      w.statusCode := w.header.value.code;
      hasChanges := true;
    }
    SignalChange(w, hasChanges, delta);
  }

  method FillFields(start: Meta, d: Draws) returns (m: Meta, hasChanges: bool)
    ensures m == FillMeta(start, d)
    ensures hasChanges <==>
            IsEmpty(start.locale) || IsEmpty(start.apiVersion) || IsEmpty(start.requestID) || start.requestedTime == 0
  {
    m, hasChanges := start, false;
    if IsEmpty(m.locale) {
      m := m.(locale := "en_US");
      hasChanges := true;
    }
    if IsEmpty(m.apiVersion) {
      m := m.(apiVersion := "v0.0.1");
      hasChanges := true;
    }
    if IsEmpty(m.requestID) {
      m := m.(requestID := d.requestID);
      hasChanges := true;
    }
    if m.requestedTime == 0 {
      m := m.(requestedTime := d.now);
      hasChanges := true;
    }
  }

  method FillMetaOf(w: Wrapper, d: Draws) returns (hasChanges: bool)
    modifies w`meta, w`custom
    ensures w.MetaNow() == Some(FillMeta(if old(w.meta.Some?) then old(w.MetaNow()).value else EMPTY_META, d))
    ensures hasChanges == MetaSignals(old(w.Fields())) && w.Cached() == old(w.Cached())
  {
    hasChanges := w.meta.None?;
    w.NeedMeta();
    var m, filled := FillFields(w.meta.value, d);
    w.meta := Some(m);
    hasChanges := hasChanges || filled;
  }

  method RunMeta(w: Wrapper, d: Draws)
    modifies w`meta, w`custom
    ensures w.Fields() == NormMeta(old(w.Fields()), d) && w.Cached() == old(w.Cached())
  {
    var hasChanges := FillMetaOf(w, d);
    SignalChange(w, hasChanges, d.metas);
  }

  /** The three synchronisations in order. */
  method SyncTotals(w: Wrapper) returns (hasChanges: bool)
    modifies w`total, w`pagination
    ensures w.total == TotalOf(old(w.Fields())) && w.pagination == PagesOf(old(w.Fields()))
    ensures hasChanges == BodySignals(old(w.Fields()))
  {
    hasChanges := false;
    if w.data != Nil {
      if w.total == 0 && CountedLength(w.data) > 0 {
        w.total := CountedLength(w.data);
        hasChanges := true;
      }
    }
    if w.pagination.Some? && w.pagination.value.totalItems > 0 && w.total == 0 {
      w.total := w.pagination.value.totalItems;
      hasChanges := true;
    }
    if w.pagination.Some? && w.pagination.value.totalItems == 0 && w.total > 0 {
      var v := Wrapper.EditedPages(w.pagination.value, SetTotalItems(w.total));
      w.pagination := Some(v);
      hasChanges := true;
    }
  }

  method RunBody(w: Wrapper, delta: Decimal)
    modifies w`total, w`pagination, w`meta, w`custom
    ensures w.Fields() == NormBody(old(w.Fields()), delta) && w.Cached() == old(w.Cached())
  {
    var hasChanges := SyncTotals(w);
    SignalChange(w, hasChanges, delta);
  }

  method NormalizedPages(start: PageState) returns (v: PageState)
    ensures v == Norm(start)
  {
    var p := new Pagination.Of(start);
    p.Normalize();
    v := p.Value();
  }

  method RunPaging(w: Wrapper, delta: Decimal)
    modifies w`pagination, w`meta, w`custom
    ensures w.Fields() == NormPaging(old(w.Fields()), delta) && w.Cached() == old(w.Cached())
  {
    if w.pagination.Some? {
      var v := NormalizedPages(w.pagination.value);
      w.pagination := Some(v);
      SignalChange(w, true, delta);
    }
  }

  method FillMessage(w: Wrapper) returns (hasChanges: bool)
    modifies w`message
    ensures var s := old(w.Fields());
            && w.message == (if MessageSignals(s) then ClassName(s.statusCode) else s.message)
            && hasChanges == MessageSignals(s)
  {
    hasChanges := false;
    if IsEmpty(w.message) && w.statusCode > 0 {
      if 100 <= w.statusCode <= 199 {
        w.message := "Informational";
        hasChanges := true;
      } else if 200 <= w.statusCode <= 299 {
        w.message := "Successful";
        hasChanges := true;
      } else if 300 <= w.statusCode <= 399 {
        w.message := "Redirection";
        hasChanges := true;
      } else if 400 <= w.statusCode <= 499 {
        w.message := "Client Error";
        hasChanges := true;
      } else if 500 <= w.statusCode <= 599 {
        w.message := "Server Error";
        hasChanges := true;
      }
    }
  }

  method RunMessage(w: Wrapper, delta: Decimal)
    modifies w`message, w`meta, w`custom
    ensures w.Fields() == NormMessage(old(w.Fields()), delta) && w.Cached() == old(w.Cached())
  {
    var hasChanges := FillMessage(w);
    SignalChange(w, hasChanges, delta);
  }

  /** The loop that deletes entries while it visits them. */
  method DropNils(d: DebugMap) returns (hasChanges: bool)
    modifies d
    ensures d.entries == Meaningful(old(d.entries)) && (hasChanges <==> HasNil(old(d.entries)))
  {
    ghost var before := d.entries;
    hasChanges := false;
    var rest := d.entries.Keys;
    while rest != {}
      invariant rest <= before.Keys
      invariant d.entries == map k | k in before && (k in rest || before[k] != Null) :: before[k]
      invariant hasChanges <==> exists k :: k in before && k !in rest && before[k] == Null
      decreases |rest|
    {
      var k :| k in rest;
      rest := rest - {k};
      if d.entries[k] == Null {
        d.entries := d.entries - {k};
        hasChanges := true;
      }
    }
  }

  method RunDebug(w: Wrapper, delta: Decimal)
    modifies w`meta, w`custom, w.debug
    ensures w.Fields() == NormDebug(old(w.Fields()), delta) && w.Cached() == old(w.Cached())
  {
    if w.debug == null {
      assert Meaningful(map[]) == map[];
      return;
    }
    var hasChanges := DropNils(w.debug);
    SignalChange(w, hasChanges, delta);
  }

  method RunHead(w: Wrapper, rt: Runtime, d: Draws)
    modifies w`statusCode, w`header, w`total, w`pagination, w`meta, w`custom
    ensures w.Snap() == old(w.Snap()).(st := NormHead(rt, old(w.Fields()), d))
  {
    RunHSC(w, rt, d.hsc);
    RunMeta(w, d);
    RunBody(w, d.body);
  }

  method RunTail(w: Wrapper, d: Draws)
    modifies w`pagination, w`message, w`meta, w`custom, w.debug
    ensures w.Snap() == old(w.Snap()).(st := NormTail(old(w.Fields()), d))
  {
    RunPaging(w, d.paging);
    RunMessage(w, d.text);
    RunDebug(w, d.debugs);
  }

  lemma AllStages(rt: Runtime, s: State, d: Draws, h: State, t: State)
    requires h == NormHead(rt, s, d) && t == NormTail(h, d)
    ensures t == NormAll(rt, s, d)
  {
  }

  method RunAll(w: Wrapper, rt: Runtime, d: Draws)
    modifies w`statusCode, w`header, w`total, w`pagination, w`message, w`meta, w`custom, w.debug
    ensures w.Snap() == old(w.Snap()).(st := NormAll(rt, old(w.Fields()), d))
  {
    ghost var s := w.Fields();
    RunHead(w, rt, d);
    ghost var h := w.Fields();
    RunTail(w, d);
    AllStages(rt, s, d, h, w.Fields());
  }

  // ---- One pass, field by field ----

  function CodeAfter(s: State): Int64 {
    if s.header.Some? then s.header.value.code else s.statusCode
  }

  function HeaderAfter(rt: Runtime, s: State): Option<Header> {
    if s.header.None? && s.statusCode > 0 then Some(HeaderOf(rt, s.statusCode)) else s.header
  }

  function MessageAfter(s: State): string {
    if IsEmpty(s.message) && 100 <= CodeAfter(s) <= 599 then ClassName(CodeAfter(s)) else s.message
  }

  function PagesAfter(s: State): Option<PageState> {
    if s.pagination.Some? then Some(Norm(PagesOf(s).value)) else None
  }

  function MetaOf(s: State): Meta {
    if s.meta.Some? then s.meta.value else EMPTY_META
  }

  function Bit(b: bool): nat {
    if b then 1 else 0
  }

  function HeadSignals(rt: Runtime, s: State, d: Draws): nat {
    Bit(HscSignals(s)) + Bit(MetaSignals(NormHSC(rt, s, d.hsc))) + Bit(BodySignals(s))
  }

  function TailSignals(s: State): nat {
    Bit(s.pagination.Some?) + Bit(IsEmpty(s.message) && 100 <= CodeAfter(s) <= 599) + Bit(HasNil(s.debug))
  }

  /** The number of stages that signal, each seen in the state the stage finds. */
  function SignalCount(rt: Runtime, s: State, d: Draws): nat {
    HeadSignals(rt, s, d) + TailSignals(s)
  }

  /** Equal up to the counter and its random value. */
  predicate SameButDelta(a: Meta, b: Meta) {
    a == b.(deltaValue := a.deltaValue, deltaCnt := a.deltaCnt)
  }

  /** The 64-bit counter after n increments. */
  function Bumped(c: Int64, n: nat): Int64 {
    if n == 0 then c else Wrap64(Bumped(c, n - 1) + 1)
  }

  lemma {:induction false} BumpedSum(c: Int64, a: nat, b: nat)
    ensures Bumped(Bumped(c, a), b) == Bumped(c, a + b)
    decreases b
  {
    if b > 0 {
      BumpedSum(c, a, b - 1);
    }
  }

  lemma WrapNext(n: int)
    ensures Wrap64(Wrap64(n) + 1) == Wrap64(n + 1)
  {
  }

  lemma {:induction false} BumpedWraps(c: Int64, n: nat)
    ensures Bumped(c, n) == Wrap64(c + n)
    decreases n
  {
    if n > 0 {
      BumpedWraps(c, n - 1);
      WrapNext(c + (n - 1));
    }
  }

  lemma HscStage(rt: Runtime, s: State, delta: Decimal)
    ensures var t := NormHSC(rt, s, delta);
            && t == s.(statusCode := CodeAfter(s), header := HeaderAfter(rt, s), meta := t.meta)
            && SameButDelta(MetaOf(t), MetaOf(s))
            && MetaOf(t).deltaCnt == Bumped(MetaOf(s).deltaCnt, Bit(HscSignals(s)))
  {
  }

  lemma MetaStage(s: State, d: Draws)
    ensures var t := NormMeta(s, d);
            && t.meta.Some? && t == s.(meta := t.meta) && SameButDelta(t.meta.value, FillMeta(MetaOf(s), d))
            && MetaOf(t).deltaCnt == Bumped(MetaOf(s).deltaCnt, Bit(MetaSignals(s)))
  {
  }

  lemma BodyStage(s: State, delta: Decimal)
    requires s.meta.Some?
    ensures var t := NormBody(s, delta);
            && t.meta.Some? && t == s.(total := TotalOf(s), pagination := PagesOf(s), meta := t.meta)
            && SameButDelta(t.meta.value, s.meta.value)
            && MetaOf(t).deltaCnt == Bumped(MetaOf(s).deltaCnt, Bit(BodySignals(s)))
  {
  }

  lemma BodySees(s: State, t: State)
    requires t.total == s.total && t.data == s.data && t.pagination == s.pagination
    ensures TotalOf(t) == TotalOf(s) && PagesOf(t) == PagesOf(s) && BodySignals(t) == BodySignals(s)
  {
  }

  lemma HeadFields(rt: Runtime, s: State, d: Draws)
    ensures var t := NormHead(rt, s, d);
            && t.meta.Some?
            && t == s.(statusCode := CodeAfter(s), header := HeaderAfter(rt, s), meta := t.meta, total := TotalOf(s),
                       pagination := PagesOf(s))
            && SameButDelta(t.meta.value, FillMeta(MetaOf(s), d))
            && MetaOf(t).deltaCnt ==
               Bumped(MetaOf(s).deltaCnt, HeadSignals(rt, s, d))
  {
    var s1 := NormHSC(rt, s, d.hsc);
    var s2 := NormMeta(s1, d);
    HscStage(rt, s, d.hsc);
    MetaStage(s1, d);
    BodyStage(s2, d.body);
    BodySees(s, s2);
    BumpedSum(MetaOf(s).deltaCnt, Bit(HscSignals(s)), Bit(MetaSignals(s1)));
    BumpedSum(MetaOf(s).deltaCnt, Bit(HscSignals(s)) + Bit(MetaSignals(s1)), Bit(BodySignals(s)));
  }

  lemma PagingStage(s: State, delta: Decimal)
    requires s.meta.Some?
    ensures var t := NormPaging(s, delta);
            && t.meta.Some?
            && t == s.(meta := t.meta,
                       pagination := if s.pagination.Some? then Some(Norm(s.pagination.value)) else None)
            && SameButDelta(t.meta.value, s.meta.value)
            && MetaOf(t).deltaCnt == Bumped(MetaOf(s).deltaCnt, Bit(s.pagination.Some?))
  {
  }

  lemma TextStage(s: State, delta: Decimal)
    requires s.meta.Some?
    ensures var t := NormMessage(s, delta);
            && t.meta.Some?
            && t == s.(meta := t.meta, message := if MessageSignals(s) then ClassName(s.statusCode) else s.message)
            && SameButDelta(t.meta.value, s.meta.value)
            && MetaOf(t).deltaCnt == Bumped(MetaOf(s).deltaCnt, Bit(MessageSignals(s)))
  {
  }

  lemma DebugStage(s: State, delta: Decimal)
    requires s.meta.Some?
    ensures var t := NormDebug(s, delta);
            && t.meta.Some? && t == s.(meta := t.meta, debug := Meaningful(s.debug))
            && SameButDelta(t.meta.value, s.meta.value)
            && MetaOf(t).deltaCnt == Bumped(MetaOf(s).deltaCnt, Bit(HasNil(s.debug)))
  {
  }

  lemma TailFields(s: State, d: Draws)
    requires s.meta.Some?
    ensures var t := NormTail(s, d);
            && t.meta.Some?
            && t == s.(meta := t.meta, debug := Meaningful(s.debug),
                       pagination := if s.pagination.Some? then Some(Norm(s.pagination.value)) else None,
                       message := if MessageSignals(s) then ClassName(s.statusCode) else s.message)
            && SameButDelta(t.meta.value, s.meta.value)
            && MetaOf(t).deltaCnt ==
               Bumped(MetaOf(s).deltaCnt, Bit(s.pagination.Some?) + Bit(MessageSignals(s)) + Bit(HasNil(s.debug)))
  {
    var s1 := NormPaging(s, d.paging);
    var s2 := NormMessage(s1, d.text);
    PagingStage(s, d.paging);
    TextStage(s1, d.text);
    DebugStage(s2, d.debugs);
    BumpedSum(MetaOf(s).deltaCnt, Bit(s.pagination.Some?), Bit(MessageSignals(s)));
    BumpedSum(MetaOf(s).deltaCnt, Bit(s.pagination.Some?) + Bit(MessageSignals(s)), Bit(HasNil(s.debug)));
  }

  lemma PassFields(rt: Runtime, s: State, d: Draws)
    ensures var t := NormAll(rt, s, d);
            && t.meta.Some?
            && t == s.(statusCode := CodeAfter(s), header := HeaderAfter(rt, s), meta := t.meta, total := TotalOf(s),
                       pagination := PagesAfter(s), message := MessageAfter(s), debug := Meaningful(s.debug))
            && SameButDelta(t.meta.value, FillMeta(MetaOf(s), d))
  {
    HeadFields(rt, s, d);
    TailFields(NormHead(rt, s, d), d);
  }

  // ---- One pass, in the terms of its input ----

  /** The number of elements, where the payload is a slice of a type that is counted. */
  predicate Counts(b: Body, n: int) {
    match b
    case Items(xs) => n == |xs|
    case Bytes(xs) => n == |xs|
    case _ => n == 0
  }

  /** A total that is 0 is taken from the payload, and from pagination if the payload has none. */
  lemma NormTotal(rt: Runtime, s: State, d: Draws, n: Int64)
    requires Counts(s.data, n)
    ensures var t := NormAll(rt, s, d);
            var p := if s.pagination.Some? then s.pagination.value.totalItems else 0;
            t.total == if s.total != 0 then s.total else if n > 0 then n else if p > 0 then p else 0
  {
    PassFields(rt, s, d);
  }

  /** Pagination without a total takes the new one, and its page count and flag then fit it. */
  lemma NormPages(rt: Runtime, s: State, d: Draws)
    ensures var t := NormAll(rt, s, d);
            && (t.pagination.Some? <==> s.pagination.Some?)
            && (s.pagination.Some? ==>
                  var (p, q) := (s.pagination.value, t.pagination.value);
                  && q.perPage == p.perPage
                  && q.totalItems == (if p.totalItems == 0 && t.total > 0 then t.total else p.totalItems)
                  && (q.totalItems > 0 && q.perPage > 0 && Fits(q.totalItems, q.perPage) ==> Counted(q))
                  && (q.totalItems == 0 ==> q.page == 1 && q.totalPages == 0 && q.isLast))
  {
    PassFields(rt, s, d);
    if s.pagination.Some? { NormMeaning(PagesOf(s).value); }
  }

  /** A blank message becomes the name of the status class. */
  lemma NormText(rt: Runtime, s: State, d: Draws)
    ensures var t := NormAll(rt, s, d);
            && t.statusCode == (if s.header.Some? then s.header.value.code else s.statusCode)
            && t.message == if !IsEmpty(s.message) then s.message
                            else if 100 <= t.statusCode <= 199 then "Informational"
                            else if 200 <= t.statusCode <= 299 then "Successful"
                            else if 300 <= t.statusCode <= 399 then "Redirection"
                            else if 400 <= t.statusCode <= 499 then "Client Error"
                            else if 500 <= t.statusCode <= 599 then "Server Error"
                            else s.message
  {
    PassFields(rt, s, d);
  }

  /** A missing header is made from the status, and nothing else is touched in one that is there. */
  lemma NormHeader(rt: Runtime, s: State, d: Draws)
    ensures var h := NormAll(rt, s, d).header;
            if s.header.Some? || s.statusCode <= 0 then h == s.header
            else h == Some(Header(if 100 <= s.statusCode <= 599 then s.statusCode else 500,
                                  rt.statusText(s.statusCode), "", ""))
  {
    PassFields(rt, s, d);
  }

  lemma NormDefaults(rt: Runtime, s: State, d: Draws)
    ensures NormAll(rt, s, d).meta.Some?
    ensures var (m, n) := (if s.meta.Some? then s.meta.value else Meta("", "", "", 0, map[], Decimal(0, 0), 0),
                           NormAll(rt, s, d).meta.value);
            && n.locale == (if IsEmpty(m.locale) then "en_US" else m.locale)
            && n.apiVersion == (if IsEmpty(m.apiVersion) then "v0.0.1" else m.apiVersion)
            && n.requestID == (if IsEmpty(m.requestID) then d.requestID else m.requestID)
            && n.requestedTime == (if m.requestedTime == 0 then d.now else m.requestedTime)
            && n.customFields == m.customFields
  {
    PassFields(rt, s, d);
  }

  /** The entries that are nil are gone and the others are as they were; the fields NormAll does not name stay. */
  lemma NormRest(rt: Runtime, s: State, d: Draws)
    ensures var t := NormAll(rt, s, d);
            && (forall k :: k in t.debug <==> k in s.debug && s.debug[k] != Null)
            && (forall k :: k in t.debug ==> t.debug[k] == s.debug[k])
            && t == s.(statusCode := t.statusCode, header := t.header, meta := t.meta, total := t.total,
                       pagination := t.pagination, message := t.message, debug := t.debug)
  {
    PassFields(rt, s, d);
  }

  // ---- Convergence ----

  /** The state without the change counter and its random value. */
  function Core(s: State): State {
    if s.meta.None? then s else s.(meta := Some(s.meta.value.(deltaValue := Decimal(0, 0), deltaCnt := 0)))
  }

  /** Nothing is left for NormAll to do. */
  predicate Normal(s: State) {
    && (if s.header.Some? then s.statusCode == s.header.value.code else s.statusCode <= 0)
    && !MetaSignals(s) && !BodySignals(s) && !MessageSignals(s) && !HasNil(s.debug)
    && (s.pagination.Some? ==> Norm(s.pagination.value) == s.pagination.value)
  }

  lemma MeaningfulFixed(m: Dict)
    ensures Meaningful(m) == m <==> !HasNil(m)
    ensures !HasNil(Meaningful(m))
  {
    if HasNil(m) {
      var k :| k in m && m[k] == Null;
      assert k !in Meaningful(m);
    }
  }

  /** None of the defaults is blank. */
  lemma DefaultsVisible()
    ensures !IsEmpty("en_US") && !IsEmpty("v0.0.1")
  {
    LetterFirst("en_US");
    LetterFirst("v0.0.1");
  }

  lemma FixedMeta(s: State, d: Draws, t: State)
    requires Usable(d) && Core(t) == Core(s) && t.meta.Some?
    requires SameButDelta(t.meta.value, FillMeta(MetaOf(s), d))
    ensures !MetaSignals(s)
  {
    DefaultsVisible();
    assert s.meta.Some?;
    var a, b := Core(s).meta.value, Core(t).meta.value;
    assert a.locale == b.locale && a.apiVersion == b.apiVersion && a.requestID == b.requestID;
    assert a.requestedTime == b.requestedTime;
  }

  lemma FixedBody(s: State)
    requires TotalOf(s) == s.total && PagesAfter(s) == s.pagination
    ensures !BodySignals(s)
  {
  }

  lemma ClassNameVisible(code: int)
    requires 100 <= code <= 599
    ensures !IsEmpty(ClassName(code))
  {
    LetterFirst(ClassName(code));
  }

  lemma FixedMessage(s: State)
    requires MessageAfter(s) == s.message && CodeAfter(s) == s.statusCode
    ensures !MessageSignals(s)
  {
    if MessageSignals(s) { ClassNameVisible(s.statusCode); }
  }

  /** Normal states are exactly the fixpoints of every stage, up to the counter. */
  lemma NormalIffFixed(rt: Runtime, s: State, d: Draws)
    requires Usable(d)
    ensures Core(NormAll(rt, s, d)) == Core(s) <==> Normal(s)
  {
    PassFields(rt, s, d);
    MeaningfulFixed(s.debug);
    var t := NormAll(rt, s, d);
    if Normal(s) {
      assert TotalOf(s) == s.total && PagesOf(s) == s.pagination;
      assert FillMeta(MetaOf(s), d) == s.meta.value;
    } else if Core(t) == Core(s) {
      assert t.total == s.total && t.pagination == s.pagination && t.message == s.message && t.header == s.header;
      assert t.statusCode == s.statusCode && t.debug == s.debug;
      FixedMeta(s, d, t);
      FixedBody(s);
      FixedMessage(s);
    }
  }

  /** One pass is enough for these states. */
  predicate OnePass(s: State) {
    s.header.Some? || s.statusCode <= 0 || 100 <= s.statusCode <= 599
  }

  lemma PagesSettle(s: State, t: State)
    requires t.total == TotalOf(s) && t.pagination == PagesAfter(s) && t.data == s.data
    ensures !BodySignals(t)
    ensures t.pagination.Some? ==> Norm(t.pagination.value) == t.pagination.value
  {
    if s.pagination.Some? {
      NormIdempotent(PagesOf(s).value);
    }
  }

  /**
   * One pass reaches a normal state exactly when a header is present, or the status is unset or a valid code. Else
   * the header it makes carries 500 and the status keeps its value, and a second pass is needed.
   */
  lemma OnePassIff(rt: Runtime, s: State, d: Draws)
    requires Usable(d)
    ensures Normal(NormAll(rt, s, d)) <==> OnePass(s)
  {
    PassFields(rt, s, d);
    MeaningfulFixed(s.debug);
    PagesSettle(s, NormAll(rt, s, d));
    DefaultsVisible();
    if 100 <= CodeAfter(s) <= 599 { ClassNameVisible(CodeAfter(s)); }
  }

  /** f applied again and again, with a draw each time. */
  function Iterate<S, D>(f: (S, D) -> S, s: S, ds: seq<D>): S {
    if ds == [] then s else Iterate(f, f(s, ds[0]), ds[1..])
  }

  function Times(n: nat, c: nat): nat {
    n * c
  }

  lemma TimesNext(n: nat, c: nat)
    requires n > 0
    ensures Times(n, c) == c + Times(n - 1, c)
  {
  }

  /** An invariant with a count that every application raises by c. */
  lemma {:induction false} Iterated<S(!new), D(!new)>(f: (S, D) -> S, inv: (S, nat) -> bool, ok: D -> bool, c: nat,
                                                       s: S, n: nat, ds: seq<D>)
    requires inv(s, n)
    requires forall i :: 0 <= i < |ds| ==> ok(ds[i])
    requires forall u, m: nat, d :: inv(u, m) && ok(d) ==> inv(f(u, d), m + c)
    ensures inv(Iterate(f, s, ds), n + Times(|ds|, c))
    decreases |ds|
  {
    if ds != [] {
      Iterated(f, inv, ok, c, f(s, ds[0]), n + c, ds[1..]);
      TimesNext(|ds|, c);
    }
  }

  function Pass(rt: Runtime): (State, Draws) -> State {
    (u, d) => NormAll(rt, u, d)
  }

  function NormTimes(rt: Runtime, s: State, ds: seq<Draws>): State {
    Iterate(Pass(rt), s, ds)
  }

  predicate AllUsable(ds: seq<Draws>) {
    forall i :: 0 <= i < |ds| ==> Usable(ds[i])
  }

  lemma CoreNormal(s: State, t: State)
    requires Core(s) == Core(t)
    ensures Normal(s) <==> Normal(t)
  {
    assert s.meta.Some? <==> t.meta.Some?;
    if s.meta.Some? {
      var a, b := Core(s).meta.value, Core(t).meta.value;
      assert a.locale == b.locale && a.apiVersion == b.apiVersion && a.requestID == b.requestID;
      assert a.requestedTime == b.requestedTime;
    }
  }

  /** A second pass leaves a normal state whatever the first one found. */
  lemma SecondPass(rt: Runtime, s: State, d: Draws, d': Draws)
    requires Usable(d) && Usable(d')
    ensures Normal(NormAll(rt, NormAll(rt, s, d), d'))
  {
    PassFields(rt, s, d);
    OnePassIff(rt, NormAll(rt, s, d), d');
  }

  /** What passes keep: debug entries that are not nil, totals that are not 0, a message that is not blank. */
  predicate Keeps(s: State, t: State) {
    && (forall k :: k in s.debug && s.debug[k] != Null ==> k in t.debug && t.debug[k] == s.debug[k])
    && t.debug.Keys <= s.debug.Keys
    && (s.total != 0 ==> t.total == s.total)
    && (t.pagination.Some? <==> s.pagination.Some?)
    && (s.pagination.Some? && s.pagination.value.totalItems != 0 ==>
          t.pagination.value.totalItems == s.pagination.value.totalItems)
    && (!IsEmpty(s.message) ==> t.message == s.message)
    && (s.header.Some? ==> t.header == s.header)
    && t.data == s.data && t.errors == s.errors && t.issue == s.issue
  }

  lemma PassKeeps(rt: Runtime, s: State, t: State, d: Draws)
    requires Keeps(s, t)
    ensures Keeps(s, NormAll(rt, t, d))
  {
    PassFields(rt, t, d);
  }

  lemma NormKeeps(rt: Runtime, s: State, ds: seq<Draws>)
    ensures Keeps(s, NormTimes(rt, s, ds))
  {
    forall t, d | Keeps(s, t)
      ensures Keeps(s, Pass(rt)(t, d))
    {
      PassKeeps(rt, s, t, d);
    }
    Iterated(Pass(rt), (t, n) => Keeps(s, t), d => true, 0, s, 0, ds);
  }

  // ---- The change counter ----

  function Bare(s: State): State {
    s.(meta := None)
  }

  lemma HscChange(rt: Runtime, s: State, delta: Decimal)
    ensures HscSignals(s) <==>
            Bare(NormHSC(rt, s, delta)) != Bare(s) || (s.header.Some? && s.header.value.code == s.statusCode <= 0)
  {
    var a, b := Bare(NormHSC(rt, s, delta)), Bare(s);
    if a == b {
      assert a.statusCode == b.statusCode && a.header == b.header;
    }
  }

  lemma MetaChange(s: State, d: Draws)
    requires Usable(d)
    ensures MetaSignals(s) <==> Core(NormMeta(s, d)) != Core(s)
  {
    MetaStage(s, d);
    if Core(NormMeta(s, d)) == Core(s) {
      FixedMeta(s, d, NormMeta(s, d));
    }
  }

  lemma BodyChange(s: State, delta: Decimal)
    ensures BodySignals(s) <==> Bare(NormBody(s, delta)) != Bare(s)
  {
    var a, b := Bare(NormBody(s, delta)), Bare(s);
    if a == b {
      assert a.total == b.total && a.pagination == b.pagination;
    }
  }

  lemma TextChange(s: State, delta: Decimal)
    ensures MessageSignals(s) <==> Bare(NormMessage(s, delta)) != Bare(s)
  {
    if MessageSignals(s) {
      ClassNameVisible(s.statusCode);
      assert Bare(NormMessage(s, delta)).message != Bare(s).message;
    }
  }

  /**
   * A stage signals exactly when it changed something, except for two that signal for nothing: a header whose code
   * is not positive, and pagination that is in order already.
   */
  lemma SignalsMeanChange(rt: Runtime, s: State, d: Draws)
    requires Usable(d)
    ensures HscSignals(s) <==>
            Bare(NormHSC(rt, s, d.hsc)) != Bare(s) || (s.header.Some? && s.header.value.code == s.statusCode <= 0)
    ensures MetaSignals(s) <==> Core(NormMeta(s, d)) != Core(s)
    ensures BodySignals(s) <==> Bare(NormBody(s, d.body)) != Bare(s)
    ensures MessageSignals(s) <==> Bare(NormMessage(s, d.text)) != Bare(s)
    ensures HasNil(s.debug) <==> Bare(NormDebug(s, d.debugs)) != Bare(s)
  {
    HscChange(rt, s, d.hsc);
    MetaChange(s, d);
    BodyChange(s, d.body);
    TextChange(s, d.text);
    MeaningfulFixed(s.debug);
    assert Bare(NormDebug(s, d.debugs)).debug == Meaningful(s.debug);
  }

  /** The last three stages see the same message, debug map and presence of pagination as the first. */
  lemma TailCount(s: State, h: State, d: Draws)
    requires h.meta.Some? && h.statusCode == CodeAfter(s) && h.pagination == PagesOf(s)
    requires h.message == s.message && h.debug == s.debug
    ensures MetaOf(NormTail(h, d)).deltaCnt == Bumped(MetaOf(h).deltaCnt, TailSignals(s))
  {
    TailFields(h, d);
    assert h.pagination.Some? == s.pagination.Some?;
    assert MessageSignals(h) == (IsEmpty(s.message) && 100 <= CodeAfter(s) <= 599);
  }

  lemma CountFrom(s: State, h: State, d: Draws, n: nat)
    requires h.meta.Some? && h.statusCode == CodeAfter(s) && h.pagination == PagesOf(s)
    requires h.message == s.message && h.debug == s.debug
    requires MetaOf(h).deltaCnt == Bumped(MetaOf(s).deltaCnt, n)
    ensures MetaOf(NormTail(h, d)).deltaCnt == Bumped(MetaOf(s).deltaCnt, n + TailSignals(s))
  {
    TailCount(s, h, d);
    BumpedSum(MetaOf(s).deltaCnt, n, TailSignals(s));
  }

  /** What the last three stages need to know of the first three. */
  lemma HeadCount(rt: Runtime, s: State, d: Draws)
    ensures var h := NormHead(rt, s, d);
            && h.meta.Some? && h.statusCode == CodeAfter(s) && h.pagination == PagesOf(s)
            && h.message == s.message && h.debug == s.debug
            && MetaOf(h).deltaCnt == Bumped(MetaOf(s).deltaCnt, HeadSignals(rt, s, d))
  {
    HeadFields(rt, s, d);
  }

  /** One NormAll raises the counter by the number of stages that signal. */
  lemma DeltaCounts(rt: Runtime, s: State, d: Draws)
    ensures MetaOf(NormAll(rt, s, d)).deltaCnt == Bumped(MetaOf(s).deltaCnt, SignalCount(rt, s, d))
  {
    HeadCount(rt, s, d);
    CountFrom(s, NormHead(rt, s, d), d, HeadSignals(rt, s, d));
  }

  /** What each pass adds on a normal state: pagination always signals, and so does a header without a code. */
  function Churn(s: State): nat {
    Bit(s.pagination.Some?) + Bit(s.header.Some? && s.header.value.code <= 0)
  }

  lemma NormalCount(rt: Runtime, s: State, d: Draws)
    requires Normal(s)
    ensures SignalCount(rt, s, d) == Churn(s)
  {
    HscStage(rt, s, d.hsc);
    assert !MetaSignals(NormHSC(rt, s, d.hsc));
  }

  lemma CoreChurn(s: State, t: State)
    requires Core(s) == Core(t)
    ensures Churn(s) == Churn(t)
  {
    assert Core(s).header == s.header && Core(t).header == t.header;
    assert Core(s).pagination == s.pagination && Core(t).pagination == t.pagination;
  }

  /** u is what some passes made of the normal state s, after n signals. */
  predicate Reached(s: State, u: State, n: nat) {
    Core(u) == Core(s) && MetaOf(u).deltaCnt == Bumped(MetaOf(s).deltaCnt, n) && (n == 0 ==> u == s)
  }

  lemma NormalIdle(rt: Runtime, s: State, d: Draws)
    requires Normal(s) && Churn(s) == 0
    ensures NormAll(rt, s, d) == s
  {
    MeaningfulFixed(s.debug);
    assert NormHead(rt, s, d) == s;
  }

  lemma ReachedNext(rt: Runtime, s: State, u: State, n: nat, d: Draws)
    requires Normal(s) && Usable(d) && Reached(s, u, n)
    ensures Reached(s, NormAll(rt, u, d), n + Churn(s))
  {
    CoreNormal(s, u);
    CoreChurn(s, u);
    NormalIffFixed(rt, u, d);
    DeltaCounts(rt, u, d);
    NormalCount(rt, u, d);
    BumpedSum(MetaOf(s).deltaCnt, n, Churn(s));
    if n + Churn(s) == 0 {
      NormalIdle(rt, s, d);
    }
  }

  /** From a normal state k passes change nothing but the counter, which grows by k times the churn. */
  lemma NormalRuns(rt: Runtime, s: State, ds: seq<Draws>)
    requires Normal(s) && AllUsable(ds)
    ensures Reached(s, NormTimes(rt, s, ds), Times(|ds|, Churn(s)))
  {
    forall u, n: nat, d | Reached(s, u, n) && Usable(d)
      ensures Reached(s, Pass(rt)(u, d), n + Churn(s))
    {
      ReachedNext(rt, s, u, n, d);
    }
    Iterated(Pass(rt), (u, n) => Reached(s, u, n), d => Usable(d), Churn(s), s, 0, ds);
  }

  lemma IterateTwo<S, D>(f: (S, D) -> S, s: S, ds: seq<D>)
    requires |ds| >= 2
    ensures Iterate(f, s, ds) == Iterate(f, f(f(s, ds[0]), ds[1]), ds[2..])
  {
    assert ds[1..][1..] == ds[2..];
    assert ds[1..][0] == ds[1];
  }

  /** From any state, two applications reach a fixpoint that no further application leaves. */
  lemma TwoPassesSuffice(rt: Runtime, s: State, d: Draws, d': Draws, u: State, ds: seq<Draws>)
    requires Usable(d) && Usable(d') && AllUsable(ds)
    requires u == NormAll(rt, NormAll(rt, s, d), d')
    ensures Normal(u) && Reached(u, NormTimes(rt, s, [d, d'] + ds), Times(|ds|, Churn(u)))
  {
    SecondPass(rt, s, d, d');
    assert ([d, d'] + ds)[2..] == ds;
    IterateTwo(Pass(rt), s, [d, d'] + ds);
    NormalRuns(rt, u, ds);
  }
}
