/** Reading a paged history backwards, and when the reader may call it complete. */
module HistoryPages {
  import opened Options

  /** An id or a time is `None` when the exchange did not send a plain number. */
  datatype Row = Row(id: Option<nat>, time: Option<nat>)

  // A page holds at most 100 rows.
  const EARLIEST := 1_000_000_000_000

  /** Asks for the newest rows, or for those before an id. */
  type Getter = Option<nat> -> seq<Row>

  function IdSet(rows: seq<Row>): set<nat> {
    set r | r in rows && r.id.Some? :: r.id.value
  }

  /** Every id is a number, none repeats in the page and none was seen before. */
  predicate Usable(rows: seq<Row>, seen: set<nat>) {
    && (forall i | 0 <= i < |rows| :: rows[i].id.Some? && rows[i].id.value !in seen)
    && forall i, j | 0 <= i < j < |rows| :: rows[i].id != rows[j].id
  }

  /** The whole page is older than the observation window. */
  predicate Predates(rows: seq<Row>, window: Option<int>) {
    window.Some? && forall i | 0 <= i < |rows| :: rows[i].time.Some? && EARLIEST <= rows[i].time.value < window.value
  }

  function LeastId(rows: seq<Row>): nat
    requires rows != [] && forall i | 0 <= i < |rows| :: rows[i].id.Some?
  {
    var last := rows[|rows| - 1].id.value;
    if |rows| == 1 then last
    else
      var least := LeastId(rows[..|rows| - 1]);
      if last < least then last else least
  }

  datatype Verdict = Refused | Ended | More

  function Judge(rows: seq<Row>, seen: set<nat>, window: Option<int>): Verdict {
    if !Usable(rows, seen) then Refused
    else if |rows| < 100 || Predates(rows, window) then Ended
    else More
  }

  /** What reading ends with after up to `pages` more requests, and whether that is all of the history. */
  function Read(getter: Getter, pages: nat, window: Option<int>, seen: set<nat>, cursor: Option<nat>,
      result: seq<Row>): (seq<Row>, bool)
  {
    if pages == 0 then (result, false)
    else
      var rows := getter(cursor);
      match Judge(rows, seen, window)
      case Refused => (result + rows, false)
      case Ended => (result + rows, true)
      case More => Read(getter, pages - 1, window, seen + IdSet(rows), Some(LeastId(rows)), result + rows)
  }

  method ReadHistory(getter: Getter, maxPages: nat, window: Option<int>) returns (result: seq<Row>, complete: bool)
    ensures (result, complete) == Read(getter, maxPages, window, {}, None, [])
  {
    result := [];
    var seen: set<nat>, cursor := {}, None;
    var n := 0;
    while n < maxPages
      invariant 0 <= n <= maxPages
      invariant Read(getter, maxPages, window, {}, None, []) == Read(getter, maxPages - n, window, seen, cursor, result)
    {
      var rows := getter(cursor);
      result := result + rows;
      if !Usable(rows, seen) {
        return result, false;
      }
      seen := seen + IdSet(rows);
      if |rows| < 100 {
        return result, true;
      }
      if Predates(rows, window) {
        return result, true;
      }
      cursor := Some(LeastId(rows));
      n := n + 1;
    }
    return result, false;
  }

  /** From any server at all: a history called complete has numbered rows and repeats none of them. */
  lemma {:induction false} CompleteNeverRepeats(getter: Getter, pages: nat, window: Option<int>, cursor: Option<nat>,
      result: seq<Row>)
    requires Usable(result, {}) && Read(getter, pages, window, IdSet(result), cursor, result).1
    ensures Usable(Read(getter, pages, window, IdSet(result), cursor, result).0, {})
    decreases pages
  {
    var rows := getter(cursor);
    UsableConcat(result, rows);
    if |rows| >= 100 && !Predates(rows, window) {
      CompleteNeverRepeats(getter, pages - 1, window, Some(LeastId(rows)), result + rows);
    }
  }

  lemma UsableConcat(a: seq<Row>, b: seq<Row>)
    requires Usable(a, {}) && Usable(b, IdSet(a))
    ensures Usable(a + b, {}) && IdSet(a + b) == IdSet(a) + IdSet(b)
  {
    forall i, j | 0 <= i < |a| && 0 <= j < |b| ensures a[i].id != b[j].id {
      assert a[i] in a && a[i].id.value in IdSet(a);
    }
  }

  // ---------------------------------------------------------------- any server, page by page

  /** Every id of the page is a number that no row of the page or before it has. */
  ghost predicate Fresh(before: seq<Row>, page: seq<Row>) {
    && (forall i | 0 <= i < |page| :: page[i].id.Some? && forall r | r in before :: r.id != page[i].id)
    && forall i, j | 0 <= i < j < |page| :: page[i].id != page[j].id
  }

  /** Every row carries a plausible time in milliseconds that is older than the window. */
  ghost predicate TooOld(page: seq<Row>, window: Option<int>) {
    && window.Some?
    && forall r | r in page :: r.time.Some? && 1_000_000_000_000 <= r.time.value < window.value
  }

  ghost predicate IsLeast(page: seq<Row>, id: nat) {
    (exists r :: r in page && r.id == Some(id)) && forall r | r in page && r.id.Some? :: id <= r.id.value
  }

  ghost function Concat(pages: seq<seq<Row>>): seq<Row> {
    if pages == [] then [] else pages[0] + Concat(pages[1..])
  }

  /** The pages a reader gets: each but the last is fresh, full and not too old, and the next one is asked
      for below its least id. */
  ghost predicate Paged(getter: Getter, window: Option<int>, before: seq<Row>, cursor: Option<nat>,
                        pages: seq<seq<Row>>)
    decreases |pages|
  {
    pages != [] ==>
      && pages[0] == getter(cursor)
      && (|pages| > 1 ==>
            && Fresh(before, pages[0]) && |pages[0]| >= 100 && !TooOld(pages[0], window)
            && exists least :: IsLeast(pages[0], least) &&
                 Paged(getter, window, before + pages[0], Some(least), pages[1..]))
  }

  /** The last page is fresh and ends the history: it is short, or too old. */
  ghost predicate EndsWell(window: Option<int>, before: seq<Row>, pages: seq<seq<Row>>)
    decreases |pages|
  {
    pages != [] &&
      if |pages| == 1 then Fresh(before, pages[0]) && (|pages[0]| < 100 || TooOld(pages[0], window))
      else EndsWell(window, before + pages[0], pages[1..])
  }

  ghost predicate EndsStale(before: seq<Row>, pages: seq<seq<Row>>)
    decreases |pages|
  {
    pages != [] && if |pages| == 1 then !Fresh(before, pages[0]) else EndsStale(before + pages[0], pages[1..])
  }

  lemma FreshIff(before: seq<Row>, page: seq<Row>)
    ensures Usable(page, IdSet(before)) <==> Fresh(before, page)
  {
    forall i | 0 <= i < |page| && page[i].id.Some?
      ensures page[i].id.value in IdSet(before) <==> exists r :: r in before && r.id == page[i].id
    {
      if r :| r in before && r.id == page[i].id { assert r.id.value in IdSet(before); }
    }
  }

  lemma TooOldIff(page: seq<Row>, window: Option<int>)
    ensures Predates(page, window) <==> TooOld(page, window)
  {
    assert forall i | 0 <= i < |page| :: page[i] in page;
  }

  lemma {:induction false} LeastIsIt(page: seq<Row>)
    requires page != [] && forall i | 0 <= i < |page| :: page[i].id.Some?
    ensures IsLeast(page, LeastId(page))
  {
    var init, last := page[..|page| - 1], page[|page| - 1];
    assert page == init + [last] && last in page;
    if |page| > 1 {
      LeastIsIt(init);
      var r :| r in init && r.id == Some(LeastId(init));
      assert r in page;
    }
  }

  lemma IdsJoin(before: seq<Row>, page: seq<Row>)
    ensures IdSet(before) + IdSet(page) == IdSet(before + page)
  {
  }

  lemma ReadOne(getter: Getter, pages: nat, window: Option<int>, before: seq<Row>, cursor: Option<nat>)
    requires pages > 0
    ensures var page := getter(cursor);
      Read(getter, pages, window, IdSet(before), cursor, before) ==
        if !Fresh(before, page) then (before + page, false)
        else if |page| < 100 || TooOld(page, window) then (before + page, true)
        else Read(getter, pages - 1, window, IdSet(before + page), Some(LeastId(page)), before + page)
  {
    var page := getter(cursor);
    FreshIff(before, page);
    TooOldIff(page, window);
    IdsJoin(before, page);
  }

  lemma ConcatOne(page: seq<Row>)
    ensures Concat([page]) == page
  {
    assert [page][1..] == [];
  }

  lemma ConcatMore(page: seq<Row>, pages: seq<seq<Row>>)
    ensures Concat([page] + pages) == page + Concat(pages)
  {
    assert ([page] + pages)[1..] == pages;
  }

  ghost predicate ReadsAs(getter: Getter, budget: nat, window: Option<int>, before: seq<Row>, cursor: Option<nat>,
                          pages: seq<seq<Row>>, read: (seq<Row>, bool)) {
    && |pages| <= budget && Paged(getter, window, before, cursor, pages) && read.0 == before + Concat(pages)
    && (read.1 <==> EndsWell(window, before, pages))
    && (!read.1 ==> |pages| == budget || EndsStale(before, pages))
  }

  ghost predicate ReadInPages(getter: Getter, budget: nat, window: Option<int>, before: seq<Row>,
                              cursor: Option<nat>) {
    exists pages :: ReadsAs(getter, budget, window, before, cursor, pages,
                            Read(getter, budget, window, IdSet(before), cursor, before))
  }

  lemma {:induction false} ReadsPages(getter: Getter, budget: nat, window: Option<int>, before: seq<Row>,
      cursor: Option<nat>)
    ensures ReadInPages(getter, budget, window, before, cursor)
    decreases budget
  {
    if budget == 0 {
      NoPage(getter, window, before, cursor);
    } else if GoesOn(before, getter(cursor), window) {
      var page := getter(cursor);
      ReadsPages(getter, budget - 1, window, before + page, Some(LeastId(page)));
      MorePages(getter, budget, window, before, cursor);
    } else {
      LastPage(getter, budget, window, before, cursor);
    }
  }

  /** The page is fresh, full and not too old. */
  ghost predicate GoesOn(before: seq<Row>, page: seq<Row>, window: Option<int>) {
    Fresh(before, page) && |page| >= 100 && !TooOld(page, window)
  }

  lemma NoPage(getter: Getter, window: Option<int>, before: seq<Row>, cursor: Option<nat>)
    ensures ReadInPages(getter, 0, window, before, cursor)
  {
    assert before + Concat([]) == before;
    assert ReadsAs(getter, 0, window, before, cursor, [], Read(getter, 0, window, IdSet(before), cursor, before));
  }

  lemma LastPage(getter: Getter, budget: nat, window: Option<int>, before: seq<Row>, cursor: Option<nat>)
    requires budget > 0 && !GoesOn(before, getter(cursor), window)
    ensures ReadInPages(getter, budget, window, before, cursor)
  {
    ReadOne(getter, budget, window, before, cursor);
    ConcatOne(getter(cursor));
    assert ReadsAs(getter, budget, window, before, cursor, [getter(cursor)],
                   Read(getter, budget, window, IdSet(before), cursor, before));
  }

  lemma MorePages(getter: Getter, budget: nat, window: Option<int>, before: seq<Row>, cursor: Option<nat>)
    requires budget > 0 && GoesOn(before, getter(cursor), window)
    requires ReadInPages(getter, budget - 1, window, before + getter(cursor), Some(LeastId(getter(cursor))))
    ensures ReadInPages(getter, budget, window, before, cursor)
  {
    var page := getter(cursor);
    var rest :| ReadsAs(getter, budget - 1, window, before + page, Some(LeastId(page)), rest,
      Read(getter, budget - 1, window, IdSet(before + page), Some(LeastId(page)), before + page));
    ReadOne(getter, budget, window, before, cursor);
    LeastIsIt(page);
    PagesJoin(getter, window, before, cursor, page, rest);
    assert ReadsAs(getter, budget, window, before, cursor, [page] + rest,
                   Read(getter, budget, window, IdSet(before), cursor, before));
  }

  lemma PagesJoin(getter: Getter, window: Option<int>, before: seq<Row>, cursor: Option<nat>, page: seq<Row>,
                  rest: seq<seq<Row>>)
    requires page == getter(cursor) && Fresh(before, page) && |page| >= 100 && !TooOld(page, window)
    requires IsLeast(page, LeastId(page)) && Paged(getter, window, before + page, Some(LeastId(page)), rest)
    ensures var pages := [page] + rest;
      && Paged(getter, window, before, cursor, pages) && before + Concat(pages) == (before + page) + Concat(rest)
      && (EndsWell(window, before, pages) <==> EndsWell(window, before + page, rest))
      && (EndsStale(before, pages) <==> EndsStale(before + page, rest))
  {
    assert ([page] + rest)[1..] == rest;
    ConcatMore(page, rest);
  }

  /** From any server: the result is the pages asked for, one after another; it is called complete exactly
      when the last one ends the history, and otherwise the last one repeated or misnumbered a row, or no
      page was left to ask for. */
  lemma AnyServerIsReadSo(getter: Getter, maxPages: nat, window: Option<int>) returns (pages: seq<seq<Row>>)
    ensures ReadsAs(getter, maxPages, window, [], None, pages, Read(getter, maxPages, window, {}, None, []))
  {
    ReadsPages(getter, maxPages, window, [], None);
    assert IdSet([]) == {};
    pages :| ReadsAs(getter, maxPages, window, [], None, pages, Read(getter, maxPages, window, {}, None, []));
  }

  // ---------------------------------------------------------------- an honest server

  predicate Descending(h: seq<Row>) {
    && (forall i | 0 <= i < |h| :: h[i].id.Some?)
    && forall i, j | 0 <= i < j < |h| :: h[i].id.value > h[j].id.value
  }

  predicate Before(r: Row, cursor: Option<nat>) {
    cursor.Some? ==> r.id.Some? && r.id.value < cursor.value
  }

  function Below(h: seq<Row>, cursor: Option<nat>): seq<Row> {
    if h == [] then []
    else if Before(h[0], cursor) then [h[0]] + Below(h[1..], cursor)
    else Below(h[1..], cursor)
  }

  function Newest(rows: seq<Row>): seq<Row> {
    if |rows| <= 100 then rows else rows[..100]
  }

  predicate Answers(getter: Getter, h: seq<Row>, cursor: Option<nat>) {
    getter(cursor) == Newest(Below(h, cursor))
  }

  /** Each request answers with the newest hundred rows before the cursor. */
  ghost predicate Honest(getter: Getter, h: seq<Row>) {
    Descending(h) && forall c :: Answers(getter, h, c)
  }

  predicate TimesDescend(h: seq<Row>) {
    forall i, j | 0 <= i < j < |h| && h[i].time.Some? && h[j].time.Some? :: h[i].time.value >= h[j].time.value
  }

  /** The cursor after the first k rows. */
  function CursorAt(h: seq<Row>, k: nat): Option<nat>
    requires k <= |h|
  {
    if k == 0 then None else h[k - 1].id
  }

  lemma {:induction false} BelowAll(h: seq<Row>, cursor: Option<nat>)
    requires forall i | 0 <= i < |h| :: Before(h[i], cursor)
    ensures Below(h, cursor) == h
  {
    if h != [] {
      BelowAll(h[1..], cursor);
      assert h == [h[0]] + h[1..];
    }
  }

  lemma {:induction false} BelowCursor(h: seq<Row>, k: nat)
    requires Descending(h) && k <= |h|
    ensures Below(h, CursorAt(h, k)) == h[k..]
  {
    if k == 0 {
      BelowAll(h, None);
    } else if k == 1 {
      assert forall i | 0 <= i < |h[1..]| :: Before(h[1..][i], h[0].id);
      BelowAll(h[1..], h[0].id);
    } else {
      BelowCursor(h[1..], k - 1);
      assert CursorAt(h[1..], k - 1) == CursorAt(h, k) && h[1..][k - 1..] == h[k..];
    }
  }

  lemma {:induction false} LeastIsLast(rows: seq<Row>)
    requires rows != [] && Descending(rows)
    ensures LeastId(rows) == rows[|rows| - 1].id.value
  {
    if |rows| > 1 { LeastIsLast(rows[..|rows| - 1]); }
  }

  function PageAt(h: seq<Row>, k: nat): seq<Row>
    requires k <= |h|
  {
    if |h| - k <= 100 then h[k..] else h[k..k + 100]
  }

  lemma HonestPage(getter: Getter, h: seq<Row>, k: nat)
    requires Honest(getter, h) && k <= |h|
    ensures getter(CursorAt(h, k)) == PageAt(h, k)
    ensures Usable(PageAt(h, k), IdSet(h[..k])) && Descending(PageAt(h, k))
  {
    BelowCursor(h, k);
    assert Answers(getter, h, CursorAt(h, k));
    var rows := PageAt(h, k);
    forall i | 0 <= i < |rows| ensures rows[i].id.Some? && rows[i].id.value !in IdSet(h[..k]) {
      assert rows[i] == h[k + i];
    }
  }

  /** The reading after the first k rows of the history. */
  function ReadAt(getter: Getter, h: seq<Row>, pages: nat, window: Option<int>, k: nat): (seq<Row>, bool)
    requires k <= |h|
  {
    Read(getter, pages, window, IdSet(h[..k]), CursorAt(h, k), h[..k])
  }

  /** Which of the next pages stops the reading: a short one, or a full one of which every row carries a
      time in milliseconds since 1970, no earlier than September 2001, that is older than the window. */
  predicate StopsAt(h: seq<Row>, k: nat, window: Option<int>)
    requires k <= |h|
  {
    || |h| - k < 100
    || (&& window.Some?
        && forall i | k <= i < k + 100 :: h[i].time.Some? && 1_000_000_000_000 <= h[i].time.value < window.value)
  }

  lemma StopsAtIff(h: seq<Row>, k: nat, window: Option<int>)
    requires k <= |h|
    ensures StopsAt(h, k, window) <==> |h| - k < 100 || Predates(PageAt(h, k), window)
  {
    if |h| - k >= 100 {
      var page := PageAt(h, k);
      assert forall i | 0 <= i < 100 :: page[i] == h[k + i];
      assert forall i | k <= i < k + 100 :: h[i] == page[i - k];
    }
  }

  lemma NextPage(h: seq<Row>, k: nat)
    requires Descending(h) && k + 100 <= |h|
    ensures PageAt(h, k) == h[k..k + 100] && Some(LeastId(PageAt(h, k))) == CursorAt(h, k + 100)
    ensures IdSet(h[..k]) + IdSet(PageAt(h, k)) == IdSet(h[..k + 100]) && h[..k] + PageAt(h, k) == h[..k + 100]
  {
    assert PageAt(h, k) == h[k..k + 100] && PageAt(h, k)[99] == h[k + 99];
    LeastIsLast(PageAt(h, k));
    assert h[..k + 100] == h[..k] + h[k..k + 100];
  }

  /** One request: the reading stops with this page or goes on with the next. */
  lemma ReadOnePage(getter: Getter, h: seq<Row>, pages: nat, window: Option<int>, k: nat)
    requires Honest(getter, h) && k <= |h| && pages > 0
    ensures StopsAt(h, k, window) ==> ReadAt(getter, h, pages, window, k) == (h[..k + |PageAt(h, k)|], true)
    ensures !StopsAt(h, k, window) ==>
      ReadAt(getter, h, pages, window, k) == ReadAt(getter, h, pages - 1, window, k + 100)
  {
    HonestPage(getter, h, k);
    StopsAtIff(h, k, window);
    assert h[..k] + PageAt(h, k) == h[..k + |PageAt(h, k)|];
    if k + 100 <= |h| { NextPage(h, k); }
  }

  /** Reading from row k stops after a number of whole pages, none of which stops it. */
  ghost predicate FirstStop(h: seq<Row>, window: Option<int>, k: nat, stop: nat) {
    exists n: nat :: stop == k + 100 * n && stop <= |h| && AllPass(h, window, k, n)
  }

  predicate Passes(h: seq<Row>, window: Option<int>, k: nat, i: nat) {
    k + 100 * i <= |h| && !StopsAt(h, k + 100 * i, window)
  }

  ghost predicate AllPass(h: seq<Row>, window: Option<int>, k: nat, n: nat) {
    forall i: nat | i < n :: Passes(h, window, k, i)
  }

  lemma FirstStopEarlier(h: seq<Row>, window: Option<int>, k: nat, stop: nat)
    requires Passes(h, window, k, 0) && FirstStop(h, window, k + 100, stop)
    ensures FirstStop(h, window, k, stop)
  {
    var n: nat :| stop == k + 100 + 100 * n && AllPass(h, window, k + 100, n);
    forall i: nat | i < n + 1 ensures Passes(h, window, k, i) {
      if i > 0 {
        assert Passes(h, window, k + 100, i - 1);
        assert k + 100 + 100 * (i - 1) == k + 100 * i;
      }
    }
    assert AllPass(h, window, k, n + 1) && stop == k + 100 * (n + 1);
  }

  /** The row at which reading from row k on stops, within the page budget. */
  function StopRow(h: seq<Row>, pages: nat, window: Option<int>, k: nat): (stop: nat)
    requires k <= |h|
    ensures k <= stop <= |h| && stop <= k + 100 * pages
    decreases pages
  {
    if pages == 0 || StopsAt(h, k, window) then k else StopRow(h, pages - 1, window, k + 100)
  }

  lemma {:induction false} StopRowIsFirst(h: seq<Row>, pages: nat, window: Option<int>, k: nat)
    requires k <= |h|
    ensures var stop := StopRow(h, pages, window, k);
      FirstStop(h, window, k, stop) && (stop < k + 100 * pages ==> StopsAt(h, stop, window))
    decreases pages
  {
    if pages == 0 || StopsAt(h, k, window) {
      assert AllPass(h, window, k, 0) && k == k + 100 * 0;
    } else {
      StopRowIsFirst(h, pages - 1, window, k + 100);
      FirstStopEarlier(h, window, k, StopRow(h, pages - 1, window, k + 100));
    }
  }

  function Outcome(h: seq<Row>, pages: nat, window: Option<int>, k: nat): (seq<Row>, bool)
    requires k <= |h|
  {
    var stop := StopRow(h, pages, window, k);
    if stop == k + 100 * pages then (h[..stop], false) else (h[..stop + |PageAt(h, stop)|], true)
  }

  lemma ReadNoPage(getter: Getter, h: seq<Row>, window: Option<int>, k: nat)
    requires k <= |h|
    ensures ReadAt(getter, h, 0, window, k) == Outcome(h, 0, window, k)
  {
  }

  lemma OutcomeOnePage(h: seq<Row>, pages: nat, window: Option<int>, k: nat)
    requires k <= |h| && pages > 0
    ensures StopsAt(h, k, window) ==> Outcome(h, pages, window, k) == (h[..k + |PageAt(h, k)|], true)
    ensures !StopsAt(h, k, window) ==> Outcome(h, pages, window, k) == Outcome(h, pages - 1, window, k + 100)
  {
  }

  lemma ReadStep(getter: Getter, h: seq<Row>, pages: nat, window: Option<int>, k: nat)
    requires Honest(getter, h) && k <= |h| && pages > 0 && !StopsAt(h, k, window)
    requires ReadAt(getter, h, pages - 1, window, k + 100) == Outcome(h, pages - 1, window, k + 100)
    ensures ReadAt(getter, h, pages, window, k) == Outcome(h, pages, window, k)
  {
    ReadOnePage(getter, h, pages, window, k);
    OutcomeOnePage(h, pages, window, k);
  }

  lemma ReadLast(getter: Getter, h: seq<Row>, pages: nat, window: Option<int>, k: nat)
    requires Honest(getter, h) && k <= |h| && pages > 0 && StopsAt(h, k, window)
    ensures ReadAt(getter, h, pages, window, k) == Outcome(h, pages, window, k)
  {
    ReadOnePage(getter, h, pages, window, k);
    OutcomeOnePage(h, pages, window, k);
  }

  lemma {:induction false} ReadIs(getter: Getter, h: seq<Row>, pages: nat, window: Option<int>, k: nat)
    requires Honest(getter, h) && k <= |h|
    ensures ReadAt(getter, h, pages, window, k) == Outcome(h, pages, window, k)
    decreases pages
  {
    if pages == 0 {
      ReadNoPage(getter, h, window, k);
    } else if StopsAt(h, k, window) {
      ReadLast(getter, h, pages, window, k);
    } else {
      ReadIs(getter, h, pages - 1, window, k + 100);
      ReadStep(getter, h, pages, window, k);
    }
  }

  lemma ReadFromTheStart(getter: Getter, h: seq<Row>, pages: nat, window: Option<int>)
    ensures ReadAt(getter, h, pages, window, 0) == Read(getter, pages, window, {}, None, [])
  {
    assert IdSet(h[..0]) == {} && h[..0] == [];
  }

  /** Without a window, against an honest server: complete exactly when the history is shorter than the
      pages allowed, and then it is the entire history; otherwise exactly `maxPages` full pages. */
  lemma CompleteIsEverything(getter: Getter, h: seq<Row>, maxPages: nat)
    requires Honest(getter, h)
    ensures var r := Read(getter, maxPages, None, {}, None, []);
      && (r.1 <==> |h| < 100 * maxPages)
      && (r.1 ==> r.0 == h)
      && (!r.1 ==> r.0 == h[..100 * maxPages])
  {
    ReadFromTheStart(getter, h, maxPages, None);
    var stop := StopRow(h, maxPages, None, 0);
    ReadIs(getter, h, maxPages, None, 0);
    StopRowIsFirst(h, maxPages, None, 0);
    if stop < 100 * maxPages {
      assert |h| - stop < 100 && h[..stop + |PageAt(h, stop)|] == h;
    }
  }

  /** With a window, and times that never increase toward older rows: the result is the newest rows, and
      when it is called complete every row left out is older than the window; when it is not, exactly
      `maxPages` full pages were read and none of them was older than the window. */
  lemma CompleteCoversTheWindow(getter: Getter, h: seq<Row>, maxPages: nat, start: int)
    requires Honest(getter, h) && TimesDescend(h)
    ensures var r := Read(getter, maxPages, Some(start), {}, None, []);
      && r.0 <= h
      && (r.1 ==> forall i | |r.0| <= i < |h| && h[i].time.Some? :: h[i].time.value < start)
      && (!r.1 ==> |r.0| == 100 * maxPages && FirstStop(h, Some(start), 0, 100 * maxPages))
  {
    ReadFromTheStart(getter, h, maxPages, Some(start));
    var stop := StopRow(h, maxPages, Some(start), 0);
    ReadIs(getter, h, maxPages, Some(start), 0);
    StopRowIsFirst(h, maxPages, Some(start), 0);
    if stop < 100 * maxPages && |h| - stop >= 100 {
      OlderThanTheLastPage(h, stop, start);
    }
  }

  lemma OlderThanTheLastPage(h: seq<Row>, k: nat, start: int)
    requires TimesDescend(h) && k + 100 <= |h| && StopsAt(h, k, Some(start))
    ensures forall i | k + 100 <= i < |h| && h[i].time.Some? :: h[i].time.value < start
  {
    assert h[k + 99].time.Some? && h[k + 99].time.value < start;
  }
}
