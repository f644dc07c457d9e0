/** The same-chat rule of the acceptance observer: in each chat at most one open job is claimed, and it
    is the one the chat should work on next. */
module ChatJobs {

  datatype Status = Pending | Claimed | Terminal

  datatype Job = Job(id: int, rawId: int, chat: int, status: Status)

  datatype Violation =
    | MultipleClaims(chat: int, ids: seq<int>)
    | OutOfOrder(chat: int, first: int, claimed: int)

  datatype Found = Nothing | Trouble(violation: Violation)

  predicate Open(j: Job) { j.status != Terminal }

  /** (raw message id, job id), compared as a pair. */
  predicate NotAfter(a: Job, b: Job) {
    a.rawId < b.rawId || (a.rawId == b.rawId && a.id <= b.id)
  }

  // ---------------------------------------------------------------- one chat

  /** The open jobs of one chat, in the order given. */
  function OpenOf(jobs: seq<Job>, chat: int): seq<Job> {
    if jobs == [] then []
    else if Open(jobs[|jobs| - 1]) && jobs[|jobs| - 1].chat == chat
    then OpenOf(jobs[..|jobs| - 1], chat) + [jobs[|jobs| - 1]]
    else OpenOf(jobs[..|jobs| - 1], chat)
  }

  function Insert(rows: seq<Job>, j: Job): seq<Job> {
    if rows == [] || !NotAfter(rows[0], j) then [j] + rows else [rows[0]] + Insert(rows[1..], j)
  }

  function Sort(rows: seq<Job>): seq<Job> {
    if rows == [] then [] else Insert(Sort(rows[..|rows| - 1]), rows[|rows| - 1])
  }

  function ClaimedIn(rows: seq<Job>): seq<Job> {
    if rows == [] then []
    else if rows[0].status == Claimed then [rows[0]] + ClaimedIn(rows[1..])
    else ClaimedIn(rows[1..])
  }

  function Ids(rows: seq<Job>): (r: seq<int>)
    ensures |r| == |rows| && forall i | 0 <= i < |r| :: r[i] == rows[i].id
  {
    seq(|rows|, i requires 0 <= i < |rows| => rows[i].id)
  }

  function CheckChat(chat: int, rows: seq<Job>): Found {
    var ordered := Sort(rows);
    var claimed := ClaimedIn(ordered);
    if |claimed| > 1 then Trouble(MultipleClaims(chat, Ids(claimed)))
    else if claimed != [] && ordered != [] && claimed[0].id != ordered[0].id
    then Trouble(OutOfOrder(chat, ordered[0].id, claimed[0].id))
    else Nothing
  }

  predicate SortedRows(rows: seq<Job>) {
    forall i, j | 0 <= i < j < |rows| :: NotAfter(rows[i], rows[j])
  }

  lemma {:induction false} InsertHas(rows: seq<Job>, j: Job, x: Job)
    ensures x in Insert(rows, j) <==> x == j || x in rows
  {
    if rows != [] && NotAfter(rows[0], j) {
      InsertHas(rows[1..], j, x);
      assert rows == [rows[0]] + rows[1..];
    }
  }

  lemma {:induction false} InsertPermutes(rows: seq<Job>, j: Job)
    ensures multiset(Insert(rows, j)) == multiset(rows) + multiset{j}
  {
    if rows != [] && NotAfter(rows[0], j) {
      InsertPermutes(rows[1..], j);
      assert rows == [rows[0]] + rows[1..];
    }
  }

  lemma {:induction false} InsertSorts(rows: seq<Job>, j: Job)
    requires SortedRows(rows)
    ensures SortedRows(Insert(rows, j))
  {
    if rows != [] && NotAfter(rows[0], j) {
      var rest := Insert(rows[1..], j);
      InsertSorts(rows[1..], j);
      forall i | 0 <= i < |rest| ensures NotAfter(rows[0], rest[i]) {
        InsertHas(rows[1..], j, rest[i]);
      }
    }
  }

  lemma {:induction false} SortKeeps(rows: seq<Job>)
    ensures SortedRows(Sort(rows)) && multiset(Sort(rows)) == multiset(rows)
  {
    if rows != [] {
      var init, last := rows[..|rows| - 1], rows[|rows| - 1];
      SortKeeps(init);
      InsertSorts(Sort(init), last);
      InsertPermutes(Sort(init), last);
      assert rows == init + [last] && multiset(rows) == multiset(init) + multiset{last};
    }
  }

  // ---------------------------------------------------------------- what the check of one chat means

  predicate OpenIn(j: Job, chat: int) { j.status in {Pending, Claimed} && j.chat == chat }

  predicate ClaimedFor(j: Job, chat: int) { j.status == Claimed && j.chat == chat }

  ghost function ClaimedAt(jobs: seq<Job>, chat: int): set<int> {
    set i | 0 <= i < |jobs| && ClaimedFor(jobs[i], chat)
  }

  /** The least open job of a chat, by its raw message id and then by its own id. */
  predicate LeastOpen(jobs: seq<Job>, chat: int, k: Job) {
    && k in jobs && OpenIn(k, chat)
    && forall m | m in jobs && OpenIn(m, chat) :: k.rawId < m.rawId || (k.rawId == m.rawId && k.id <= m.id)
  }

  /** At most one claimed job, carrying the id of the chat's least open job. */
  ghost predicate InOrder(jobs: seq<Job>, chat: int) {
    && |ClaimedAt(jobs, chat)| <= 1
    && forall j | j in jobs && ClaimedFor(j, chat) :: exists k :: LeastOpen(jobs, chat, k) && k.id == j.id
  }

  lemma {:induction false} OpenOfHas(jobs: seq<Job>, chat: int, j: Job)
    ensures j in OpenOf(jobs, chat) <==> j in jobs && OpenIn(j, chat)
  {
    if jobs != [] {
      assert jobs == jobs[..|jobs| - 1] + [jobs[|jobs| - 1]];
      OpenOfHas(jobs[..|jobs| - 1], chat, j);
    }
  }

  lemma {:induction false} ClaimedInHas(rows: seq<Job>, j: Job)
    ensures j in ClaimedIn(rows) <==> j in rows && j.status == Claimed
  {
    if rows != [] {
      assert rows == [rows[0]] + rows[1..];
      ClaimedInHas(rows[1..], j);
    }
  }

  function One(j: Job): nat { if j.status == Claimed then 1 else 0 }

  lemma {:induction false} ClaimedInSnoc(rows: seq<Job>, j: Job)
    ensures |ClaimedIn(rows + [j])| == |ClaimedIn(rows)| + One(j)
  {
    if rows == [] {
      assert rows + [j] == [j] && [j][1..] == [];
    } else {
      assert (rows + [j])[1..] == rows[1..] + [j];
      ClaimedInSnoc(rows[1..], j);
    }
  }

  lemma {:induction false} ClaimedInInsert(rows: seq<Job>, j: Job)
    ensures |ClaimedIn(Insert(rows, j))| == |ClaimedIn(rows)| + One(j)
  {
    if rows == [] || !NotAfter(rows[0], j) {
      assert ([j] + rows)[1..] == rows;
    } else {
      assert ([rows[0]] + Insert(rows[1..], j))[1..] == Insert(rows[1..], j);
      ClaimedInInsert(rows[1..], j);
    }
  }

  lemma {:induction false} ClaimedInSort(rows: seq<Job>)
    ensures |ClaimedIn(Sort(rows))| == |ClaimedIn(rows)|
  {
    if rows != [] {
      var init, last := rows[..|rows| - 1], rows[|rows| - 1];
      ClaimedInSort(init);
      ClaimedInInsert(Sort(init), last);
      ClaimedInSnoc(init, last);
      assert rows == init + [last];
    }
  }

  lemma {:induction false} ClaimedCount(jobs: seq<Job>, chat: int)
    ensures |ClaimedIn(OpenOf(jobs, chat))| == |ClaimedAt(jobs, chat)|
  {
    if jobs == [] {
      assert ClaimedAt(jobs, chat) == {};
    } else {
      var n := |jobs| - 1;
      var init, last := jobs[..n], jobs[n];
      ClaimedCount(init, chat);
      ClaimedInSnoc(OpenOf(init, chat), last);
      assert ClaimedAt(jobs, chat) == ClaimedAt(init, chat) + if ClaimedFor(last, chat) then {n} else {};
    }
  }

  lemma SortedHeadIsLeast(jobs: seq<Job>, chat: int)
    requires OpenOf(jobs, chat) != []
    ensures var ordered := Sort(OpenOf(jobs, chat)); ordered != [] && LeastOpen(jobs, chat, ordered[0])
  {
    var rows := OpenOf(jobs, chat);
    var ordered := Sort(rows);
    SortKeeps(rows);
    assert |multiset(ordered)| == |ordered| == |multiset(rows)| == |rows|;
    assert ordered[0] in multiset(ordered);
    OpenOfHas(jobs, chat, ordered[0]);
    forall m | m in jobs && OpenIn(m, chat) ensures NotAfter(ordered[0], m) {
      OpenOfHas(jobs, chat, m);
      assert m in multiset(ordered);
      var i :| 0 <= i < |ordered| && ordered[i] == m;
    }
  }

  lemma SortedClaims(jobs: seq<Job>, chat: int, j: Job)
    ensures j in ClaimedIn(Sort(OpenOf(jobs, chat))) <==> j in jobs && ClaimedFor(j, chat)
  {
    var rows := OpenOf(jobs, chat);
    SortKeeps(rows);
    ClaimedInHas(Sort(rows), j);
    OpenOfHas(jobs, chat, j);
    assert j in Sort(rows) <==> j in multiset(Sort(rows));
    assert j in rows <==> j in multiset(rows);
  }

  /** The check of one chat stays silent exactly when the chat is in order. */
  lemma CheckChatIff(jobs: seq<Job>, chat: int)
    ensures CheckChat(chat, OpenOf(jobs, chat)) == Nothing <==> InOrder(jobs, chat)
  {
    var ordered := Sort(OpenOf(jobs, chat));
    var claimed := ClaimedIn(ordered);
    ClaimedInSort(OpenOf(jobs, chat));
    ClaimedCount(jobs, chat);
    forall j ensures j in claimed <==> j in jobs && ClaimedFor(j, chat) { SortedClaims(jobs, chat, j); }
    if |claimed| == 1 {
      var c := claimed[0];
      assert c in claimed;
      OpenOfHas(jobs, chat, c);
      SortedHeadIsLeast(jobs, chat);
      assert forall j | j in jobs && ClaimedFor(j, chat) :: j in claimed && j == c;
      if InOrder(jobs, chat) {
        var k :| LeastOpen(jobs, chat, k) && k.id == c.id;
        assert NotAfter(k, ordered[0]) && NotAfter(ordered[0], k);
      }
    } else if |claimed| == 0 {
      assert forall j | j in jobs :: !ClaimedFor(j, chat);
    }
  }

  /** With distinct job ids, a chat in order has claimed nothing or its least open job. */
  lemma ClaimedIsLeast(jobs: seq<Job>, chat: int, j: Job)
    requires forall a, b | a in jobs && b in jobs && a.id == b.id :: a == b
    requires InOrder(jobs, chat) && j in jobs && ClaimedFor(j, chat)
    ensures LeastOpen(jobs, chat, j)
  {
    var k :| LeastOpen(jobs, chat, k) && k.id == j.id;
    assert k == j;
  }

  ghost predicate InRawOrder(rows: seq<Job>) {
    forall i, j | 0 <= i < j < |rows| ::
      rows[i].rawId < rows[j].rawId || (rows[i].rawId == rows[j].rawId && rows[i].id <= rows[j].id)
  }

  /** The claimed jobs of a chat, each as often as it is given, in the order of their raw messages. */
  ghost predicate ClaimedInOrder(jobs: seq<Job>, chat: int, claimed: seq<Job>) {
    && InRawOrder(claimed)
    && forall j :: multiset(claimed)[j] == if ClaimedFor(j, chat) then multiset(jobs)[j] else 0
  }

  lemma {:induction false} ClaimedInIsSorted(rows: seq<Job>)
    requires SortedRows(rows)
    ensures SortedRows(ClaimedIn(rows))
    ensures forall j :: multiset(ClaimedIn(rows))[j] == if j.status == Claimed then multiset(rows)[j] else 0
  {
    if rows != [] {
      var rest := rows[1..];
      ClaimedInIsSorted(rest);
      assert rows == [rows[0]] + rest;
      forall i | 0 <= i < |ClaimedIn(rest)| ensures NotAfter(rows[0], ClaimedIn(rest)[i]) {
        ClaimedInHas(rest, ClaimedIn(rest)[i]);
      }
    }
  }

  lemma {:induction false} OpenOfCounts(jobs: seq<Job>, chat: int, j: Job)
    ensures multiset(OpenOf(jobs, chat))[j] == if OpenIn(j, chat) then multiset(jobs)[j] else 0
  {
    if jobs != [] {
      var init, last := jobs[..|jobs| - 1], jobs[|jobs| - 1];
      OpenOfCounts(init, chat, j);
      assert jobs == init + [last];
    }
  }

  lemma ClaimedAreListed(jobs: seq<Job>, chat: int)
    ensures ClaimedInOrder(jobs, chat, ClaimedIn(Sort(OpenOf(jobs, chat))))
  {
    var rows := OpenOf(jobs, chat);
    SortKeeps(rows);
    ClaimedInIsSorted(Sort(rows));
    forall j ensures multiset(ClaimedIn(Sort(rows)))[j] == if ClaimedFor(j, chat) then multiset(jobs)[j] else 0 {
      OpenOfCounts(jobs, chat, j);
    }
  }

  /** What is reported of a chat that is not in order: all its claimed jobs where there are several, else the
      least open job and the claimed one that is not it. */
  ghost predicate Reports(jobs: seq<Job>, chat: int, v: Violation) {
    match v
    case MultipleClaims(c, ids) =>
      && c == chat && |ClaimedAt(jobs, chat)| > 1
      && exists claimed :: ClaimedInOrder(jobs, chat, claimed) && Ids(claimed) == ids
    case OutOfOrder(c, first, claimed) =>
      && c == chat && |ClaimedAt(jobs, chat)| == 1 && first != claimed
      && (exists k :: LeastOpen(jobs, chat, k) && k.id == first)
      && (exists j :: j in jobs && ClaimedFor(j, chat) && j.id == claimed)
  }

  lemma CheckChatReports(jobs: seq<Job>, chat: int)
    ensures CheckChat(chat, OpenOf(jobs, chat)).Trouble? ==>
              Reports(jobs, chat, CheckChat(chat, OpenOf(jobs, chat)).violation)
  {
    var ordered := Sort(OpenOf(jobs, chat));
    var claimed := ClaimedIn(ordered);
    ClaimedInSort(OpenOf(jobs, chat));
    ClaimedCount(jobs, chat);
    ClaimedAreListed(jobs, chat);
    if |claimed| == 1 && claimed[0].id != ordered[0].id {
      SortedClaims(jobs, chat, claimed[0]);
      assert claimed[0] in claimed;
      OpenOfHas(jobs, chat, claimed[0]);
      SortedHeadIsLeast(jobs, chat);
    }
  }

  // ---------------------------------------------------------------- all chats

  function InsertKey(keys: seq<int>, k: int): seq<int> {
    if keys == [] || k < keys[0] then [k] + keys
    else if keys[0] == k then keys
    else [keys[0]] + InsertKey(keys[1..], k)
  }

  /** The chats with open jobs, ascending. */
  function ChatKeys(jobs: seq<Job>): seq<int> {
    if jobs == [] then []
    else if Open(jobs[|jobs| - 1]) then InsertKey(ChatKeys(jobs[..|jobs| - 1]), jobs[|jobs| - 1].chat)
    else ChatKeys(jobs[..|jobs| - 1])
  }

  function ViolationsFor(jobs: seq<Job>, chats: seq<int>): seq<Violation> {
    if chats == [] then []
    else
      var init, chat := ViolationsFor(jobs, chats[..|chats| - 1]), chats[|chats| - 1];
      match CheckChat(chat, OpenOf(jobs, chat))
      case Nothing => init
      case Trouble(v) => init + [v]
  }

  function Violations(jobs: seq<Job>): seq<Violation> { ViolationsFor(jobs, ChatKeys(jobs)) }

  function ClaimedChats(jobs: seq<Job>): set<int> {
    set j | j in jobs && j.status == Claimed :: j.chat
  }

  predicate Ascending(keys: seq<int>) { forall i, j | 0 <= i < j < |keys| :: keys[i] < keys[j] }

  lemma {:induction false} InsertKeyHas(keys: seq<int>, k: int)
    requires Ascending(keys)
    ensures Ascending(InsertKey(keys, k))
    ensures forall x :: x in InsertKey(keys, k) <==> x == k || x in keys
  {
    if keys != [] && keys[0] < k {
      var rest := InsertKey(keys[1..], k);
      InsertKeyHas(keys[1..], k);
      assert keys == [keys[0]] + keys[1..];
      forall i | 0 <= i < |rest| ensures keys[0] < rest[i] {
        assert rest[i] in rest;
      }
    }
  }

  lemma {:induction false} ChatKeysHas(jobs: seq<Job>)
    ensures Ascending(ChatKeys(jobs))
    ensures forall c :: c in ChatKeys(jobs) <==> exists j :: j in jobs && OpenIn(j, c)
  {
    if jobs != [] {
      var init, last := jobs[..|jobs| - 1], jobs[|jobs| - 1];
      ChatKeysHas(init);
      InsertKeyHas(ChatKeys(init), last.chat);
      assert jobs == init + [last];
      forall c ensures c in ChatKeys(jobs) <==> exists j :: j in jobs && OpenIn(j, c) {
        if c in ChatKeys(init) {
          var j :| j in init && OpenIn(j, c);
          assert j in jobs;
        }
        if Open(last) && c == last.chat { assert last in jobs && OpenIn(last, c); }
      }
    }
  }

  lemma {:induction false} ViolationsForIff(jobs: seq<Job>, chats: seq<int>)
    ensures ViolationsFor(jobs, chats) == [] <==> forall c | c in chats :: InOrder(jobs, c)
  {
    if chats != [] {
      var init, last := chats[..|chats| - 1], chats[|chats| - 1];
      assert chats == init + [last];
      ViolationsForIff(jobs, init);
      CheckChatIff(jobs, last);
    }
  }

  ghost predicate ReportsFor(jobs: seq<Job>, chats: seq<int>, vs: seq<Violation>) {
    && (forall i | 0 <= i < |vs| :: ReportedWell(jobs, chats, vs[i]))
    && (forall i, j | 0 <= i < j < |vs| :: vs[i].chat < vs[j].chat)
    && (forall c | c in chats && !InOrder(jobs, c) :: exists i :: 0 <= i < |vs| && vs[i].chat == c)
  }

  ghost predicate ReportedWell(jobs: seq<Job>, chats: seq<int>, v: Violation) {
    v.chat in chats && !InOrder(jobs, v.chat) && Reports(jobs, v.chat, v)
  }

  lemma StillWell(jobs: seq<Job>, chats: seq<int>, more: seq<int>, v: Violation)
    requires ReportedWell(jobs, chats, v) && forall c | c in chats :: c in more
    ensures ReportedWell(jobs, more, v)
  {
  }

  lemma NothingReported(jobs: seq<Job>, chats: seq<int>, vs: seq<Violation>, chat: int)
    requires ReportsFor(jobs, chats, vs) && InOrder(jobs, chat)
    ensures ReportsFor(jobs, chats + [chat], vs)
  {
    forall i | 0 <= i < |vs| ensures ReportedWell(jobs, chats + [chat], vs[i]) {
      StillWell(jobs, chats, chats + [chat], vs[i]);
    }
  }

  lemma OneReported(jobs: seq<Job>, chats: seq<int>, vs: seq<Violation>, chat: int, v: Violation)
    requires ReportsFor(jobs, chats, vs) && ReportedWell(jobs, [chat], v)
    requires forall c | c in chats :: c < chat
    ensures ReportsFor(jobs, chats + [chat], vs + [v])
  {
    var more := vs + [v];
    forall i | 0 <= i < |more| ensures ReportedWell(jobs, chats + [chat], more[i]) {
      if i < |vs| {
        StillWell(jobs, chats, chats + [chat], vs[i]);
      } else {
        StillWell(jobs, [chat], chats + [chat], v);
      }
    }
    forall c | c in chats + [chat] && !InOrder(jobs, c) ensures exists i :: 0 <= i < |more| && more[i].chat == c {
      if c in chats {
        var i :| 0 <= i < |vs| && vs[i].chat == c;
        assert more[i].chat == c;
      } else {
        assert more[|vs|].chat == c;
      }
    }
  }

  lemma {:induction false} ViolationsForReport(jobs: seq<Job>, chats: seq<int>)
    requires Ascending(chats)
    ensures ReportsFor(jobs, chats, ViolationsFor(jobs, chats))
  {
    if chats != [] {
      var init, last := chats[..|chats| - 1], chats[|chats| - 1];
      assert chats == init + [last];
      ViolationsForReport(jobs, init);
      CheckChatIff(jobs, last);
      CheckChatReports(jobs, last);
      if InOrder(jobs, last) {
        NothingReported(jobs, init, ViolationsFor(jobs, init), last);
      } else {
        OneReported(jobs, init, ViolationsFor(jobs, init), last, CheckChat(last, OpenOf(jobs, last)).violation);
      }
    }
  }

  /** One report for each chat that is not in order, and for no other, in ascending order of chats. */
  lemma ViolationsReport(jobs: seq<Job>)
    ensures var vs := Violations(jobs);
      && (forall i | 0 <= i < |vs| :: ReportedWell(jobs, ChatKeys(jobs), vs[i]))
      && (forall i, j | 0 <= i < j < |vs| :: vs[i].chat < vs[j].chat)
      && (forall chat | !InOrder(jobs, chat) :: exists i :: 0 <= i < |vs| && vs[i].chat == chat)
  {
    ChatKeysHas(jobs);
    ViolationsForReport(jobs, ChatKeys(jobs));
    forall chat | !InOrder(jobs, chat) ensures chat in ChatKeys(jobs) {
      if chat !in ChatKeys(jobs) { UnlistedIsInOrder(jobs, chat); }
    }
  }

  lemma UnlistedIsInOrder(jobs: seq<Job>, chat: int)
    requires chat !in ChatKeys(jobs)
    ensures InOrder(jobs, chat)
  {
    ChatKeysHas(jobs);
    assert ClaimedAt(jobs, chat) == {} by {
      forall i | 0 <= i < |jobs| ensures !ClaimedFor(jobs[i], chat) {
        if ClaimedFor(jobs[i], chat) { assert jobs[i] in jobs && OpenIn(jobs[i], chat); }
      }
    }
    forall j | j in jobs ensures !ClaimedFor(j, chat) {
      assert ClaimedFor(j, chat) ==> OpenIn(j, chat);
    }
  }

  /** The evaluation reports nothing exactly when every chat is in order. */
  lemma ViolationsIff(jobs: seq<Job>)
    ensures Violations(jobs) == [] <==> forall chat :: InOrder(jobs, chat)
  {
    ViolationsForIff(jobs, ChatKeys(jobs));
    ChatKeysHas(jobs);
    forall chat | chat !in ChatKeys(jobs) ensures InOrder(jobs, chat) { UnlistedIsInOrder(jobs, chat); }
  }

  // ---------------------------------------------------------------- the loop

  ghost predicate Grouped(byChat: map<int, seq<Job>>, jobs: seq<Job>) {
    && (forall c :: c in byChat <==> c in ChatKeys(jobs))
    && (forall c | c in byChat :: byChat[c] == OpenOf(jobs, c))
  }

  lemma {:induction false} NoRowsWithoutKey(jobs: seq<Job>, chat: int)
    requires chat !in ChatKeys(jobs)
    ensures OpenOf(jobs, chat) == []
  {
    ChatKeysHas(jobs);
    if OpenOf(jobs, chat) != [] {
      OpenOfHas(jobs, chat, OpenOf(jobs, chat)[0]);
    }
  }

  function Added(byChat: map<int, seq<Job>>, j: Job): map<int, seq<Job>> {
    byChat[j.chat := (if j.chat in byChat then byChat[j.chat] else []) + [j]]
  }

  lemma GroupedOneMore(byChat: map<int, seq<Job>>, init: seq<Job>, j: Job)
    requires Grouped(byChat, init)
    ensures Grouped(if Open(j) then Added(byChat, j) else byChat, init + [j])
  {
    var jobs := init + [j];
    assert jobs[..|jobs| - 1] == init && jobs[|jobs| - 1] == j;
    ChatKeysHas(init);
    if Open(j) {
      InsertKeyHas(ChatKeys(init), j.chat);
      if j.chat !in byChat { NoRowsWithoutKey(init, j.chat); }
      var more := Added(byChat, j);
      assert more[j.chat] == OpenOf(init, j.chat) + [j];
      forall c | c in more ensures more[c] == OpenOf(jobs, c) {
      }
    }
  }

  method GroupByChat(jobs: seq<Job>) returns (byChat: map<int, seq<Job>>)
    ensures Grouped(byChat, jobs)
  {
    byChat := map[];
    var i := 0;
    while i < |jobs|
      invariant 0 <= i <= |jobs|
      invariant Grouped(byChat, jobs[..i])
    {
      var j := jobs[i];
      GroupedOneMore(byChat, jobs[..i], j);
      assert jobs[..i + 1] == jobs[..i] + [j];
      if j.status == Pending || j.status == Claimed {
        byChat := byChat[j.chat := (if j.chat in byChat then byChat[j.chat] else []) + [j]];
      }
      i := i + 1;
    }
    assert jobs[..i] == jobs;
  }

  /** The chats among `chats` with a claimed job. */
  function ClaimedAmong(jobs: seq<Job>, chats: seq<int>): set<int> {
    if chats == [] then {}
    else
      var init, chat := ClaimedAmong(jobs, chats[..|chats| - 1]), chats[|chats| - 1];
      if ClaimedIn(Sort(OpenOf(jobs, chat))) != [] then init + {chat} else init
  }

  lemma {:induction false} ClaimedAmongHas(jobs: seq<Job>, chats: seq<int>)
    ensures forall c :: c in ClaimedAmong(jobs, chats) <==> c in chats && ClaimedIn(Sort(OpenOf(jobs, c))) != []
  {
    if chats != [] {
      assert chats == chats[..|chats| - 1] + [chats[|chats| - 1]];
      ClaimedAmongHas(jobs, chats[..|chats| - 1]);
    }
  }

  method EvaluateSameChatJobs(jobs: seq<Job>) returns (violations: seq<Violation>, claimedChats: set<int>)
    ensures violations == Violations(jobs) && claimedChats == ClaimedChats(jobs)
    ensures violations == [] <==> forall chat :: InOrder(jobs, chat)
  {
    ViolationsIff(jobs);
    var byChat := GroupByChat(jobs);
    var chats := ChatKeys(jobs);
    violations, claimedChats := [], {};
    var n := 0;
    while n < |chats|
      invariant 0 <= n <= |chats|
      invariant violations == ViolationsFor(jobs, chats[..n])
      invariant claimedChats == ClaimedAmong(jobs, chats[..n])
    {
      assert chats[..n + 1][..n] == chats[..n];
      var chat := chats[n];
      assert chat in byChat && byChat[chat] == OpenOf(jobs, chat);
      n := n + 1;
      var ordered := Sort(byChat[chat]);
      var claimed := ClaimedIn(ordered);
      if claimed != [] {
        claimedChats := claimedChats + {chat};
      }
      if |claimed| > 1 {
        violations := violations + [MultipleClaims(chat, Ids(claimed))];
        continue;
      }
      if claimed != [] && ordered != [] && claimed[0].id != ordered[0].id {
        violations := violations + [OutOfOrder(chat, ordered[0].id, claimed[0].id)];
      }
    }
    assert chats[..n] == chats;
    ClaimedChatsAre(jobs);
  }

  lemma ClaimedChatsAre(jobs: seq<Job>)
    ensures ClaimedChats(jobs) == ClaimedAmong(jobs, ChatKeys(jobs))
  {
    ChatKeysHas(jobs);
    ClaimedAmongHas(jobs, ChatKeys(jobs));
    var left, right := ClaimedChats(jobs), ClaimedAmong(jobs, ChatKeys(jobs));
    forall c ensures c in left <==> c in right {
      if c in ClaimedChats(jobs) {
        var j :| j in jobs && j.status == Claimed && j.chat == c;
        assert OpenIn(j, c);
        SortedClaims(jobs, c, j);
      }
      if ClaimedIn(Sort(OpenOf(jobs, c))) != [] {
        var j := ClaimedIn(Sort(OpenOf(jobs, c)))[0];
        SortedClaims(jobs, c, j);
        assert j in jobs && OpenIn(j, c);
      }
    }
    assert left == right;
  }
}
