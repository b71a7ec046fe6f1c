/** page.go: offset pagination. The class updates its fields in place; PageState is its value. */
module Pages {
  import opened Values

  datatype PageState = PageState(page: Int64, perPage: Int64, totalPages: Int64, totalItems: Int64, isLast: bool)

  const ZERO_PAGES := PageState(0, 0, 0, 0, false)

  /** (totalItems + perPage - 1) / perPage in 64-bit arithmetic. */
  function Ceil64(items: Int64, per: Int64): (n: int)
    requires per > 0
    ensures MIN_INT <= n <= MAX_INT
  {
    TruncDiv(Wrap64(items + per - 1), per)
  }

  /** Mathematical ceiling division. */
  function CeilDiv(items: int, per: int): int
    requires per > 0
  {
    (items + per - 1) / per
  }

  /** No 64-bit overflow in the numerator of the ceiling division. */
  predicate Fits(items: int, per: int) {
    items + per - 1 <= MAX_INT
  }

  // ---- Specification of calculate, Norm and the setters ----

  function Calculate(p: PageState): PageState {
    var p1 := if p.page <= 0 then p.(page := 1) else p;
    var p2 := if p1.totalItems > 0 && p1.perPage > 0 then p1.(totalPages := Ceil64(p1.totalItems, p1.perPage)) else p1;
    if p2.totalItems == 0 then p2.(totalPages := 0, isLast := true)
    else if p2.totalPages > 0 then p2.(isLast := p2.page >= p2.totalPages)
    else p2
  }

  function Norm(p: PageState): PageState {
    var p1 := p.(totalPages := if p.perPage > 0 then Ceil64(p.totalItems, p.perPage) else 0);
    if p1.totalItems == 0 then p1.(totalPages := 0, page := 1, isLast := true)
    else
      var p2 := if p1.page > p1.totalPages && p1.totalPages > 0 then p1.(page := p1.totalPages) else p1;
      p2.(isLast := p2.page >= p2.totalPages)
  }

  datatype PageOp =
    | SetPage(v: Int64) | SetPerPage(v: Int64) | SetTotalPages(v: Int64) | SetTotalItems(v: Int64) | SetIsLast(b: bool)

  function ClampPage(v: Int64): Int64 { if v < 1 then 1 else v }
  function ClampPerPage(v: Int64): Int64 { if v < 1 then 10 else v }
  function ClampCount(v: Int64): Int64 { if v < 0 then 0 else v }

  function ApplyPage(p: PageState, op: PageOp): PageState {
    match op
    case SetPage(v) => Calculate(p.(page := ClampPage(v)))
    case SetPerPage(v) => Calculate(p.(perPage := ClampPerPage(v)))
    case SetTotalPages(v) => p.(totalPages := ClampCount(v))
    case SetTotalItems(v) => Calculate(p.(totalItems := ClampCount(v)))
    case SetIsLast(b) => p.(isLast := b)
  }

  /** A chain of setters, last call last in the sequence. */
  function RunPages(ops: seq<PageOp>): PageState {
    if ops == [] then ZERO_PAGES else ApplyPage(RunPages(ops[..|ops| - 1]), ops[|ops| - 1])
  }

  // ---- The object ----

  class Pagination {
    var page: Int64
    var perPage: Int64
    var totalPages: Int64
    var totalItems: Int64
    var isLast: bool

    ghost function State(): PageState
      reads this
    {
      PageState(page, perPage, totalPages, totalItems, isLast)
    }

    constructor ()
      ensures State() == ZERO_PAGES
    {
      page, perPage, totalPages, totalItems, isLast := 0, 0, 0, 0, false;
    }

    constructor Of(p: PageState)
      ensures State() == p
    {
      page, perPage, totalPages, totalItems, isLast := p.page, p.perPage, p.totalPages, p.totalItems, p.isLast;
    }

    method Value() returns (p: PageState)
      ensures p == State()
    {
      p := PageState(page, perPage, totalPages, totalItems, isLast);
    }

    method CalculateFields()
      modifies this
      ensures State() == Calculate(old(State()))
    {
      if page <= 0 {
        page := 1;
      }
      if totalItems > 0 && perPage > 0 {
        totalPages := Ceil64(totalItems, perPage);
      }
      if totalItems == 0 {
        totalPages := 0;
        isLast := true;
        return;
      }
      if totalPages > 0 {
        isLast := page >= totalPages;
      }
    }

    method WithPage(v: Int64)
      modifies this
      ensures State() == ApplyPage(old(State()), SetPage(v))
    {
      page := if v < 1 then 1 else v;
      CalculateFields();
    }

    method WithPerPage(v: Int64)
      modifies this
      ensures State() == ApplyPage(old(State()), SetPerPage(v))
    {
      perPage := if v < 1 then 10 else v;
      CalculateFields();
    }

    method WithTotalPages(v: Int64)
      modifies this
      ensures State() == ApplyPage(old(State()), SetTotalPages(v))
    {
      totalPages := if v < 0 then 0 else v;
    }

    method WithTotalItems(v: Int64)
      modifies this
      ensures State() == ApplyPage(old(State()), SetTotalItems(v))
    {
      totalItems := if v < 0 then 0 else v;
      CalculateFields();
    }

    method WithIsLast(v: bool)
      modifies this
      ensures State() == ApplyPage(old(State()), SetIsLast(v))
    {
      isLast := v;
    }

    /** The setter that op names. */
    method Set(op: PageOp)
      modifies this
      ensures State() == ApplyPage(old(State()), op)
    {
      match op {
        case SetPage(v) => WithPage(v);
        case SetPerPage(v) => WithPerPage(v);
        case SetTotalPages(v) => WithTotalPages(v);
        case SetTotalItems(v) => WithTotalItems(v);
        case SetIsLast(v) => WithIsLast(v);
      }
    }

    method Normalize()
      modifies this
      ensures State() == Norm(old(State()))
    {
      if perPage > 0 {
        totalPages := Ceil64(totalItems, perPage);
      } else {
        totalPages := 0;
      }
      if totalItems == 0 {
        totalPages := 0;
        page := 1;
        isLast := true;
        return;
      }
      if page > totalPages && totalPages > 0 {
        page := totalPages;
      }
      isLast := page >= totalPages;
    }

    method Clone() returns (c: Pagination)
      ensures fresh(c) && c.State() == State()
    {
      c := new Pagination();
      c.page, c.perPage, c.totalPages, c.totalItems, c.isLast := page, perPage, totalPages, totalItems, isLast;
    }
  }

  // ---- Page arithmetic ----

  lemma MulMono(a: int, b: int, per: int)
    requires a <= b && per > 0
    ensures a * per <= b * per
  {
  }

  lemma CeilBounds(items: int, per: int)
    requires items > 0 && per > 0
    ensures (CeilDiv(items, per) - 1) * per < items <= CeilDiv(items, per) * per
    ensures CeilDiv(items, per) >= 1
  {
    var q, r := (items + per - 1) / per, (items + per - 1) % per;
    assert items + per - 1 == q * per + r;
    assert (q - 1) * per == q * per - per;
    if q < 1 {
      MulMono(q, 0, per);
    }
  }

  /** The 64-bit page count is the mathematical one exactly when the numerator does not overflow. */
  lemma CeilExact(items: Int64, per: Int64)
    requires items > 0 && per > 0
    ensures Ceil64(items, per) == CeilDiv(items, per) <==> Fits(items, per)
    ensures Ceil64(items, per) > 0 <==> Fits(items, per)
  {
    CeilBounds(items, per);
    if !Fits(items, per) {
      WrapAbove(items + per - 1);
    }
  }

  /** Item i (counted from 0) is shown on page p (counted from 1). */
  predicate OnPage(i: int, p: int, per: int, items: int) {
    (p - 1) * per <= i < p * per && 0 <= i < items
  }

  /** Pages 1..totalPages partition the items. */
  lemma PagesPartition(items: int, per: int, i: int)
    requires items > 0 && per > 0 && 0 <= i < items
    ensures exists p :: 1 <= p <= CeilDiv(items, per) && OnPage(i, p, per, items)
    ensures forall p, q :: OnPage(i, p, per, items) && OnPage(i, q, per, items) ==> p == q
  {
    var p := i / per + 1;
    assert i == (p - 1) * per + i % per;
    assert p * per == (p - 1) * per + per;
    assert p >= 1;
    CeilBounds(items, per);
    var n := CeilDiv(items, per);
    if p > n {
      MulMono(n, p - 1, per);
    }
    assert OnPage(i, p, per, items);
    forall a, b | OnPage(i, a, per, items) && OnPage(i, b, per, items)
      ensures a == b
    {
      if a < b { MulMono(a, b - 1, per); }
      if b < a { MulMono(b, a - 1, per); }
    }
  }

  /** Every page but the last holds perPage items; the last holds at least one. */
  lemma OnlyLastPageShort(items: int, per: int, p: int)
    requires items > 0 && per > 0 && 1 <= p <= CeilDiv(items, per)
    ensures p < CeilDiv(items, per) ==> p * per < items
    ensures p == CeilDiv(items, per) ==> (p - 1) * per < items <= p * per
  {
    CeilBounds(items, per);
    if p < CeilDiv(items, per) {
      MulMono(p, CeilDiv(items, per) - 1, per);
    }
  }

  /** isLast after calculate or Norm: nothing is left beyond the current page. */
  lemma IsLastMeaning(p: PageState)
    requires p.totalItems > 0 && p.perPage > 0 && p.page >= 1 && Fits(p.totalItems, p.perPage)
    ensures Calculate(p).isLast <==> p.page * p.perPage >= p.totalItems
    ensures Norm(p).isLast <==> p.page * p.perPage >= p.totalItems
  {
    CeilExact(p.totalItems, p.perPage);
    CeilBounds(p.totalItems, p.perPage);
    var n := CeilDiv(p.totalItems, p.perPage);
    if p.page >= n {
      MulMono(n, p.page, p.perPage);
    } else {
      MulMono(p.page, n - 1, p.perPage);
    }
  }

  // ---- What calculate and Norm leave, for every state ----

  /** The page count and the flag that belong to page, perPage and totalItems, where a page size is set. */
  predicate Counted(p: PageState) {
    && (p.totalPages - 1) * p.perPage < p.totalItems <= p.totalPages * p.perPage
    && (p.isLast <==> p.page * p.perPage >= p.totalItems)
  }

  lemma CeilCounted(items: Int64, per: Int64, page: int)
    requires items > 0 && per > 0 && Fits(items, per)
    ensures var n := Ceil64(items, per);
            && n > 0 && (n - 1) * per < items <= n * per
            && (page >= n <==> page * per >= items)
  {
    CeilExact(items, per);
    CeilBounds(items, per);
    var n := CeilDiv(items, per);
    if page >= n {
      MulMono(n, page, per);
    } else {
      MulMono(page, n - 1, per);
    }
  }

  /** Without a page size the page count is left as it was; an overflowing one is not positive, and leaves the flag. */
  lemma CalculateMeaning(p: PageState)
    ensures var q := Calculate(p);
            && q == p.(page := q.page, totalPages := q.totalPages, isLast := q.isLast)
            && q.page == (if p.page >= 1 then p.page else 1)
            && (p.totalItems == 0 ==> q.totalPages == 0 && q.isLast)
            && (p.totalItems > 0 && p.perPage > 0 && Fits(p.totalItems, p.perPage) ==> Counted(q))
            && (p.totalItems > 0 && p.perPage > 0 && !Fits(p.totalItems, p.perPage) ==>
                  q.totalPages <= 0 && q.isLast == p.isLast)
            && (p.totalItems < 0 || (p.totalItems > 0 && p.perPage <= 0) ==>
                  && q.totalPages == p.totalPages
                  && q.isLast == if p.totalPages > 0 then q.page >= p.totalPages else p.isLast)
  {
    if p.totalItems > 0 && p.perPage > 0 {
      CeilExact(p.totalItems, p.perPage);
      if Fits(p.totalItems, p.perPage) { CeilCounted(p.totalItems, p.perPage, Calculate(p).page); }
    }
  }

  lemma PageInRange(items: Int64, per: Int64, page: int)
    requires items > 0 && per > 0 && Fits(items, per)
    ensures page > Ceil64(items, per) <==> page * per - per >= items
  {
    CeilCounted(items, per, page - 1);
    assert (page - 1) * per == page * per - per;
  }

  /** Norm recounts, clamps the page from above only, and always sets the flag. */
  lemma NormMeaning(p: PageState)
    ensures var q := Norm(p);
            && q == p.(page := q.page, totalPages := q.totalPages, isLast := q.isLast)
            && (p.totalItems == 0 ==> q.page == 1 && q.totalPages == 0 && q.isLast)
            && (p.totalItems != 0 && p.perPage <= 0 ==>
                  q.page == p.page && q.totalPages == 0 && (q.isLast <==> p.page >= 0))
            && (p.totalItems > 0 && p.perPage > 0 && Fits(p.totalItems, p.perPage) ==>
                  && (p.page * p.perPage - p.perPage < p.totalItems ==> q.page == p.page)
                  && (p.page * p.perPage - p.perPage >= p.totalItems ==> q.page == q.totalPages)
                  && Counted(q))
            && (p.totalItems > 0 && p.perPage > 0 && !Fits(p.totalItems, p.perPage) ==>
                  q.page == p.page && q.totalPages <= 0 && (q.isLast <==> q.page >= q.totalPages))
  {
    if p.totalItems > 0 && p.perPage > 0 {
      CeilExact(p.totalItems, p.perPage);
      if Fits(p.totalItems, p.perPage) {
        CeilCounted(p.totalItems, p.perPage, Norm(p).page);
        PageInRange(p.totalItems, p.perPage, p.page);
      }
    }
  }

  /** Each setter clamps its argument and stores it; the other two inputs stay. */
  lemma SetterInputs(p: PageState, v: Int64, b: bool)
    ensures var q := ApplyPage(p, SetPage(v));
            q.page == (if v >= 1 then v else 1) && q.perPage == p.perPage && q.totalItems == p.totalItems
    ensures var q := ApplyPage(p, SetPerPage(v));
            && q.perPage == (if v >= 1 then v else 10) && q.totalItems == p.totalItems
            && (p.page >= 1 ==> q.page == p.page)
    ensures var q := ApplyPage(p, SetTotalItems(v));
            q.totalItems == (if v >= 0 then v else 0) && q.perPage == p.perPage && (p.page >= 1 ==> q.page == p.page)
    ensures var q := ApplyPage(p, SetTotalPages(v));
            q.totalPages == (if v >= 0 then v else 0) && q == p.(totalPages := q.totalPages)
    ensures var q := ApplyPage(p, SetIsLast(b)); q.isLast == b && q == p.(isLast := b)
  {
  }

  // ---- Confluence of the setters ----

  function LastPage(ops: seq<PageOp>): Int64 {
    if ops == [] then 1
    else if ops[|ops| - 1].SetPage? then ClampPage(ops[|ops| - 1].v)
    else LastPage(ops[..|ops| - 1])
  }

  /** 0 while WithPerPage has not been called. */
  function LastPerPage(ops: seq<PageOp>): Int64 {
    if ops == [] then 0
    else if ops[|ops| - 1].SetPerPage? then ClampPerPage(ops[|ops| - 1].v)
    else LastPerPage(ops[..|ops| - 1])
  }

  function LastItems(ops: seq<PageOp>): Int64 {
    if ops == [] then 0
    else if ops[|ops| - 1].SetTotalItems? then ClampCount(ops[|ops| - 1].v)
    else LastItems(ops[..|ops| - 1])
  }

  predicate Calculates(op: PageOp) {
    op.SetPage? || op.SetPerPage? || op.SetTotalItems?
  }

  /** The only state that the three remembered inputs allow. */
  function Canonical(page: Int64, per: Int64, items: Int64): PageState
    requires per > 0
  {
    if items <= 0 then PageState(page, per, 0, items, true)
    else
      var n := Ceil64(items, per);
      PageState(page, per, n, items, page >= n)
  }

  lemma {:induction false} RunInputs(ops: seq<PageOp>)
    ensures var p := RunPages(ops);
            && p.perPage == LastPerPage(ops) && p.totalItems == LastItems(ops)
            && LastPerPage(ops) >= 0 && LastItems(ops) >= 0 && LastPage(ops) >= 1
            && (p.page == LastPage(ops) || (p.page == 0 && LastPage(ops) == 1))
  {
    if ops != [] {
      RunInputs(ops[..|ops| - 1]);
    }
  }

  /**
   * Setter order is irrelevant: a chain that ends in WithPage, WithPerPage or WithTotalItems with perPage
   * set leaves exactly the canonical state of the last page, perPage and totalItems, whatever WithTotalPages
   * and WithIsLast wrote before, unless the 64-bit numerator overflows.
   */
  lemma SettersConfluent(ops: seq<PageOp>)
    requires ops != [] && Calculates(ops[|ops| - 1]) && LastPerPage(ops) > 0
    requires LastItems(ops) == 0 || Fits(LastItems(ops), LastPerPage(ops))
    ensures RunPages(ops) == Canonical(LastPage(ops), LastPerPage(ops), LastItems(ops))
  {
    RunInputs(ops);
    RunInputs(ops[..|ops| - 1]);
    if LastItems(ops) > 0 {
      CeilExact(LastItems(ops), LastPerPage(ops));
    }
  }

  /** Under overflow the trace of WithIsLast survives: the condition above cannot be dropped. */
  lemma OverflowKeepsTrace(per: Int64, items: Int64, b: bool)
    requires per > 0 && items > 0 && !Fits(items, per)
    ensures RunPages([SetIsLast(b), SetPerPage(per), SetIsLast(b), SetTotalItems(items)]).isLast == b
  {
    CeilExact(items, per);
    var s1 := [SetIsLast(b)];
    var s2 := [SetIsLast(b), SetPerPage(per)];
    var s3 := [SetIsLast(b), SetPerPage(per), SetIsLast(b)];
    var s4 := [SetIsLast(b), SetPerPage(per), SetIsLast(b), SetTotalItems(items)];
    assert s4[..3] == s3 && s3[..2] == s2 && s2[..1] == s1 && s1[..0] == [];
    assert RunPages(s1) == ApplyPage(ZERO_PAGES, SetIsLast(b));
    assert RunPages(s2) == ApplyPage(RunPages(s1), SetPerPage(per));
    assert RunPages(s3) == ApplyPage(RunPages(s2), SetIsLast(b));
    assert RunPages(s4) == ApplyPage(RunPages(s3), SetTotalItems(items));
  }

  // ---- Norm against calculate ----

  lemma NormIdempotent(p: PageState)
    ensures Norm(Norm(p)) == Norm(p)
  {
  }

  /** Norm erases whatever WithTotalPages and WithIsLast wrote. */
  lemma NormErases(p: PageState, pages: Int64, last: bool)
    ensures Norm(p.(totalPages := pages, isLast := last)) == Norm(p)
  {
  }

  /**
   * On a setter-built state with perPage set, Norm is calculate plus a clamp of the page: to the last page,
   * or to 1 when there are no items. It changes nothing exactly when the page was already in range.
   */
  lemma NormClamps(ops: seq<PageOp>)
    requires ops != [] && Calculates(ops[|ops| - 1]) && LastPerPage(ops) > 0
    requires LastItems(ops) == 0 || Fits(LastItems(ops), LastPerPage(ops))
    ensures var p := RunPages(ops);
            var top := if p.totalItems == 0 then 1 else p.totalPages;
            && top >= 1
            && Norm(p) == Calculate(p.(page := if p.page > top then top else p.page))
            && (Norm(p) == p <==> p.page <= top)
  {
    SettersConfluent(ops);
    RunInputs(ops);
    if LastItems(ops) > 0 {
      CeilExact(LastItems(ops), LastPerPage(ops));
    }
  }
}
