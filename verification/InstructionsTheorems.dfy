/** What accepted instructions are, and exactly when normalising them again changes nothing. */
module InstructionsTheorems {
  import opened Options
  import opened Texts
  import opened Instructions

  // ---------------------------------------------------------------- a stable permutation by priority

  predicate Sorted(rows: seq<Instruction>) {
    forall i, j | 0 <= i < j < |rows| :: Priority(rows[i].kind) <= Priority(rows[j].kind)
  }

  /** The instructions of one priority, in the order given. */
  function AtPriority(rows: seq<Instruction>, p: nat): seq<Instruction> {
    if rows == [] then []
    else if Priority(rows[|rows| - 1].kind) == p then AtPriority(rows[..|rows| - 1], p) + [rows[|rows| - 1]]
    else AtPriority(rows[..|rows| - 1], p)
  }

  lemma AtPrioritySnoc(rows: seq<Instruction>, x: Instruction, p: nat)
    ensures AtPriority(rows + [x], p) == AtPriority(rows, p) + if Priority(x.kind) == p then [x] else []
  {
    assert (rows + [x])[..|rows|] == rows;
  }

  predicate Within(rows: seq<Instruction>, bound: nat) {
    forall i | 0 <= i < |rows| :: Priority(rows[i].kind) <= bound
  }

  lemma {:induction false} InsertWithin(sorted: seq<Instruction>, x: Instruction, bound: nat)
    requires Within(sorted, bound) && Priority(x.kind) <= bound
    ensures Within(Insert(sorted, x), bound)
  {
    if sorted != [] && Priority(sorted[|sorted| - 1].kind) > Priority(x.kind) {
      InsertWithin(sorted[..|sorted| - 1], x, bound);
    }
  }

  lemma {:induction false} InsertIsSorted(sorted: seq<Instruction>, x: Instruction)
    requires Sorted(sorted)
    ensures Sorted(Insert(sorted, x)) && |Insert(sorted, x)| == |sorted| + 1
  {
    if sorted != [] && Priority(sorted[|sorted| - 1].kind) > Priority(x.kind) {
      var init, last := sorted[..|sorted| - 1], sorted[|sorted| - 1];
      InsertIsSorted(init, x);
      InsertWithin(init, x, Priority(last.kind));
    }
  }

  lemma MultisetSnoc(rows: seq<Instruction>, x: Instruction)
    ensures multiset(rows + [x]) == multiset(rows) + multiset{x}
  {
  }

  lemma {:induction false} InsertPermutes(sorted: seq<Instruction>, x: Instruction)
    ensures multiset(Insert(sorted, x)) == multiset(sorted) + multiset{x}
  {
    if sorted != [] && Priority(sorted[|sorted| - 1].kind) > Priority(x.kind) {
      var init, last := sorted[..|sorted| - 1], sorted[|sorted| - 1];
      InsertPermutes(init, x);
      MultisetSnoc(init, last);
      MultisetSnoc(Insert(init, x), last);
      assert sorted == init + [last];
    }
  }

  lemma {:induction false} InsertIsStable(sorted: seq<Instruction>, x: Instruction, p: nat)
    ensures AtPriority(Insert(sorted, x), p) == AtPriority(sorted + [x], p)
  {
    if sorted == [] {
      assert sorted + [x] == [x];
    } else if Priority(sorted[|sorted| - 1].kind) > Priority(x.kind) {
      var init, last := sorted[..|sorted| - 1], sorted[|sorted| - 1];
      InsertIsStable(init, x, p);
      AtPrioritySnoc(Insert(init, x), last, p);
      AtPrioritySnoc(init, x, p);
      AtPrioritySnoc(sorted, x, p);
    }
  }

  lemma {:induction false} OrderedIsSorted(rows: seq<Instruction>)
    ensures Sorted(Ordered(rows)) && |Ordered(rows)| == |rows|
  {
    if rows != [] {
      OrderedIsSorted(rows[..|rows| - 1]);
      InsertIsSorted(Ordered(rows[..|rows| - 1]), rows[|rows| - 1]);
    }
  }

  lemma OrderedSnoc(init: seq<Instruction>, last: Instruction)
    ensures Ordered(init + [last]) == Insert(Ordered(init), last)
  {
    assert (init + [last])[..|init|] == init;
  }

  lemma {:induction false} OrderedPermutes(rows: seq<Instruction>)
    ensures multiset(Ordered(rows)) == multiset(rows)
    decreases |rows|
  {
    if rows != [] {
      var init, last := rows[..|rows| - 1], rows[|rows| - 1];
      assert rows == init + [last];
      OrderedPermutes(init);
      OrderedSnoc(init, last);
      InsertPermutes(Ordered(init), last);
      MultisetSnoc(init, last);
    }
  }

  lemma {:induction false} OrderedKeepsOrder(rows: seq<Instruction>, p: nat)
    ensures AtPriority(Ordered(rows), p) == AtPriority(rows, p)
  {
    if rows != [] {
      var init, last := rows[..|rows| - 1], rows[|rows| - 1];
      OrderedKeepsOrder(init, p);
      InsertIsStable(Ordered(init), last, p);
      AtPrioritySnoc(Ordered(init), last, p);
    }
  }

  /** Ordering is the stable sort by priority: a permutation, sorted, and within each priority the
      instructions keep the order in which they were given. */
  lemma OrderedIsStable(rows: seq<Instruction>)
    ensures Sorted(Ordered(rows)) && multiset(Ordered(rows)) == multiset(rows) && |Ordered(rows)| == |rows|
    ensures forall p: nat :: AtPriority(Ordered(rows), p) == AtPriority(rows, p)
  {
    OrderedIsSorted(rows);
    OrderedPermutes(rows);
    forall p: nat ensures AtPriority(Ordered(rows), p) == AtPriority(rows, p) { OrderedKeepsOrder(rows, p); }
  }

  lemma {:induction false} SortedIsOrdered(rows: seq<Instruction>)
    requires Sorted(rows)
    ensures Ordered(rows) == rows
  {
    if rows != [] {
      var init, last := rows[..|rows| - 1], rows[|rows| - 1];
      SortedIsOrdered(init);
      assert rows == init + [last];
    }
  }

  // ---------------------------------------------------------------- distinct identities

  function Occurrences(rows: seq<Instruction>, id: Identity): nat {
    if rows == [] then 0
    else Occurrences(rows[..|rows| - 1], id) + if IdentityOf(rows[|rows| - 1]) == id then 1 else 0
  }

  lemma {:induction false} NoOccurrence(rows: seq<Instruction>, id: Identity)
    ensures Occurrences(rows, id) == 0 <==> forall i | 0 <= i < |rows| :: IdentityOf(rows[i]) != id
  {
    if rows != [] { NoOccurrence(rows[..|rows| - 1], id); }
  }

  ghost predicate AtMostOnce(rows: seq<Instruction>) { forall id :: Occurrences(rows, id) <= 1 }

  lemma {:induction false} DistinctIff(rows: seq<Instruction>)
    ensures Distinct(rows) <==> AtMostOnce(rows)
  {
    if rows != [] {
      var init, last := rows[..|rows| - 1], rows[|rows| - 1];
      DistinctIff(init);
      NoOccurrence(init, IdentityOf(last));
      assert forall i | 0 <= i < |init| :: init[i] == rows[i];
      if AtMostOnce(rows) {
        forall id ensures Occurrences(init, id) <= 1 { assert Occurrences(rows, id) <= 1; }
        assert Occurrences(rows, IdentityOf(last)) <= 1;
      }
      if Distinct(rows) {
        forall id ensures Occurrences(rows, id) <= 1 { assert Occurrences(init, id) <= 1; }
      }
    }
  }

  lemma OccurrencesSnoc(rows: seq<Instruction>, x: Instruction, id: Identity)
    ensures Occurrences(rows + [x], id) == Occurrences(rows, id) + if IdentityOf(x) == id then 1 else 0
  {
    assert (rows + [x])[..|rows|] == rows;
  }

  lemma {:induction false} InsertOccurs(sorted: seq<Instruction>, x: Instruction, id: Identity)
    ensures Occurrences(Insert(sorted, x), id) == Occurrences(sorted + [x], id)
  {
    OccurrencesSnoc(sorted, x, id);
    if sorted == [] {
      assert sorted + [x] == [x];
    } else if Priority(sorted[|sorted| - 1].kind) > Priority(x.kind) {
      var init, last := sorted[..|sorted| - 1], sorted[|sorted| - 1];
      InsertOccurs(init, x, id);
      OccurrencesSnoc(Insert(init, x), last, id);
      OccurrencesSnoc(init, x, id);
    }
  }

  lemma {:induction false} OrderedOccurs(rows: seq<Instruction>, id: Identity)
    ensures Occurrences(Ordered(rows), id) == Occurrences(rows, id)
  {
    if rows != [] {
      var init, last := rows[..|rows| - 1], rows[|rows| - 1];
      OrderedOccurs(init, id);
      InsertOccurs(Ordered(init), last, id);
      OccurrencesSnoc(Ordered(init), last, id);
    }
  }

  lemma OrderedDistinct(rows: seq<Instruction>)
    ensures Distinct(Ordered(rows)) == Distinct(rows)
  {
    DistinctIff(rows);
    DistinctIff(Ordered(rows));
    forall id ensures Occurrences(Ordered(rows), id) == Occurrences(rows, id) { OrderedOccurs(rows, id); }
    assert AtMostOnce(Ordered(rows)) == AtMostOnce(rows);
  }

  /** Accepted instructions: at most eight, pairwise distinct, sorted with the entries last, and a stable
      permutation of the rows that were given. */
  lemma AcceptedInstructionsAre(host: Host, raws: seq<Raw>)
    requires Normalize(host, raws).Ok?
    ensures var out, rows := Normalize(host, raws).value, NormalRows(host, raws);
      && rows.Ok? && |out| == |raws| <= MOST && Distinct(out) && Sorted(out)
      && multiset(out) == multiset(rows.value) && forall p: nat :: AtPriority(out, p) == AtPriority(rows.value, p)
  {
    var rows := NormalRows(host, raws).value;
    OrderedIsStable(rows);
    OrderedDistinct(rows);
    RowsCount(host, raws);
  }

  lemma {:induction false} RowsCount(host: Host, raws: seq<Raw>)
    requires NormalRows(host, raws).Ok?
    ensures |NormalRows(host, raws).value| == |raws|
  {
    if raws != [] { RowsCount(host, raws[..|raws| - 1]); }
  }

  lemma {:induction false} RowsAt(host: Host, raws: seq<Raw>, i: nat)
    requires NormalRows(host, raws).Ok? && i < |raws|
    ensures |NormalRows(host, raws).value| == |raws|
    ensures NormalRow(host, raws[i], i) == Ok(NormalRows(host, raws).value[i])
  {
    RowsCount(host, raws);
    RowsCount(host, raws[..|raws| - 1]);
    if i < |raws| - 1 { RowsAt(host, raws[..|raws| - 1], i); }
  }

  lemma RowsStep(host: Host, init: seq<Raw>, last: Raw, rows: seq<Instruction>, one: Instruction)
    requires NormalRows(host, init) == Ok(rows) && NormalRow(host, last, |init|) == Ok(one)
    ensures NormalRows(host, init + [last]) == Ok(rows + [one])
  {
    assert (init + [last])[..|init|] == init;
  }

  // ---------------------------------------------------------------- one instruction again

  /** The row an instruction is written back as. */
  function RowOf(i: Instruction): Raw {
    Row(Text(KindText(i.kind)), Null, Float(i.confidence), if i.reason.Some? then Text(i.reason.value) else Null,
        if i.strategy.Some? then Object(i.strategy.value) else Null, Null,
        Some(if i.lifecycle.Some? then Int(i.lifecycle.value) else Null),
        Some(if i.thread.Some? then Int(i.thread.value) else Null),
        if i.parameters.Some? then Object(i.parameters.value) else Null)
  }

  predicate LowerText(s: string) {
    NoUpper(s) && Unspaced(s)
  }

  predicate NoUpper(s: string) { forall i | 0 <= i < |s| :: !('A' <= s[i] <= 'Z') }

  predicate Unspaced(s: string) { s != "" && !IsSpace(s[0]) && !IsSpace(s[|s| - 1]) }

  lemma LongTextsAreLower()
    ensures NoUpper("cancel_pending_entry") && NoUpper("move_stop_to_protect") && NoUpper("partial_take_profit")
  {
  }

  lemma ExitTextsAreLower()
    ensures NoUpper("replace_entry") && NoUpper("full_exit") && NoUpper("partial_exit")
  {
  }

  lemma ShortTextsAreLower()
    ensures NoUpper("hold_update") && NoUpper("risk_update") && NoUpper("entry")
  {
  }

  lemma KindTextsAreUnspaced(k: Kind)
    ensures Unspaced(KindText(k))
  {
  }

  lemma KindTextsAreLower(k: Kind)
    ensures LowerText(KindText(k))
  {
    KindTextsAreUnspaced(k);
    if k == CancelPendingEntry || k == MoveStopToProtect || k == PartialTakeProfit { LongTextsAreLower(); }
    else if k == ReplaceEntry || k == FullExit || k == PartialExit { ExitTextsAreLower(); }
    else { ShortTextsAreLower(); }
  }

  lemma KindReadBack(k: Kind)
    ensures KindOf(KindText(k)) == Some(k)
  {
    assert |"cancel_pending_entry"| == 20 && |"move_stop_to_protect"| == 20 && "cancel_pending_entry"[0] == 'c' &&
      "move_stop_to_protect"[0] == 'm';
    assert |"hold_update"| == 11 && |"risk_update"| == 11 && "hold_update"[0] == 'h' && "risk_update"[0] == 'r';
    assert |"partial_exit"| == 12 && |"cancel_entry"| == 12 && |"exit_partial"| == 12;
    assert "partial_exit"[0] == 'p' && "cancel_entry"[0] == 'c' && "exit_partial"[0] == 'e';
    assert |"full_exit"| == 9 && |"exit_full"| == 9 && "full_exit"[0] == 'f' && "exit_full"[0] == 'e';
    assert |"replace_entry"| == 13 && |"partial_take_profit"| == 19 && |"position_update"| == 15 && |"entry"| == 5;
  }

  lemma LowerTextStays(s: string)
    requires LowerText(s)
    ensures Lower(Strip(s)) == s
  {
    StrippedIsFixed(s);
    assert Lower(s) == s;
  }

  lemma KindAgain(host: Host, k: Kind)
    requires Sane(host)
    ensures KindOf(Lower(Strip(StrOr(host, Text(KindText(k)))))) == Some(k) && Truthy(Text(KindText(k)))
  {
    KindTextsAreLower(k);
    LowerTextStays(KindText(k));
    KindReadBack(k);
  }

  // The strategy as one normalisation leaves it.

  predicate TextAt(s: Fields, key: string) { key in s && s[key].Text? }

  /** Its texts are trimmed, its symbol is upper case, its side is a side; some may be empty. */
  predicate ShapedStrategy(s: Fields) {
    && TextAt(s, "symbol") && Stripped(s["symbol"].s) && Upper(s["symbol"].s) == s["symbol"].s
    && TextAt(s, "side") && Stripped(s["side"].s) && Lower(s["side"].s) == s["side"].s
    && (s["side"].s == "long" || s["side"].s == "short")
    && TextAt(s, "entry") && Stripped(s["entry"].s) && TextAt(s, "stop_loss") && Stripped(s["stop_loss"].s)
    && "take_profit" in s && (s["take_profit"] == Null || (s["take_profit"].Text? && Stripped(s["take_profit"].s)))
  }

  /** None of its fields was only spaces. */
  predicate FieldsKept(s: Fields) {
    Get(s, "symbol") != Text("") && Get(s, "entry") != Text("") && Get(s, "stop_loss") != Text("") &&
      Get(s, "take_profit") != Text("")
  }

  lemma KeysDiffer()
    ensures "symbol" != "side" && "symbol" != "entry" && "symbol" != "stop_loss" && "symbol" != "take_profit"
    ensures "side" != "entry" && "side" != "stop_loss" && "side" != "take_profit"
    ensures "entry" != "stop_loss" && "entry" != "take_profit" && "stop_loss" != "take_profit"
  {
    assert |"symbol"| == 6 && |"side"| == 4 && |"entry"| == 5 && |"stop_loss"| == 9 && |"take_profit"| == 11;
  }

  lemma CompleteIsShaped(host: Host, value: Json, ordinal: nat)
    requires CompleteStrategy(host, value, ordinal).Ok?
    ensures ShapedStrategy(CompleteStrategy(host, value, ordinal).value)
  {
    KeysDiffer();
    var s := value.fields;
    StripIdempotent(host.str(s["symbol"]));
    UpperKeepsStripped(Trimmed(host, s["symbol"]));
    StripIdempotent(host.str(s["side"]));
    LowerKeepsStripped(Trimmed(host, s["side"]));
    StripIdempotent(host.str(s["entry"]));
    StripIdempotent(host.str(s["stop_loss"]));
    StripIdempotent(host.str(Get(s, "take_profit")));
  }

  function Rewritten(s: Fields): Fields
    requires TextAt(s, "symbol") && TextAt(s, "side") && TextAt(s, "entry") && TextAt(s, "stop_loss")
  {
    s["symbol" := s["symbol"]]["side" := s["side"]]["entry" := s["entry"]]["stop_loss" := s["stop_loss"]]
     ["take_profit" := if Blank(Get(s, "take_profit")) then Null else s["take_profit"]]
  }

  lemma RewrittenIs(s: Fields)
    requires ShapedStrategy(s)
    ensures Rewritten(s) == s <==> s["take_profit"] != Text("")
  {
    KeysDiffer();
    assert Rewritten(s)["take_profit"] == if Blank(s["take_profit"]) then Null else s["take_profit"];
    if s["take_profit"] != Text("") { assert Rewritten(s) == s; }
  }

  lemma CompleteAgain(host: Host, s: Fields, ordinal: nat)
    requires Sane(host) && ShapedStrategy(s)
    ensures CompleteStrategy(host, Object(s), ordinal) == Ok(s) <==> FieldsKept(s)
  {
    KeysDiffer();
    RewrittenIs(s);
    StrippedIsFixed(s["symbol"].s);
    StrippedIsFixed(s["side"].s);
    StrippedIsFixed(s["entry"].s);
    StrippedIsFixed(s["stop_loss"].s);
    if s["take_profit"].Text? { StrippedIsFixed(s["take_profit"].s); }
    assert s["side"].s != "";
    if !Blank(s["symbol"]) && !Blank(s["entry"]) && !Blank(s["stop_loss"]) {
      assert CompleteStrategy(host, Object(s), ordinal) == Ok(Rewritten(s));
    }
  }

  /** An instruction as normalisation leaves it. */
  predicate Shaped(i: Instruction) {
    && 0.0 <= i.confidence <= 1.0
    && (if CarriesStrategy(i.kind) then i.strategy.Some? && ShapedStrategy(i.strategy.value) else i.strategy == None)
    && (i.lifecycle.Some? ==> i.lifecycle.value > 0) && (i.thread.Some? ==> i.thread.value > 0)
    && (i.reason.Some? ==> 1 <= |i.reason.value| <= 1000)
  }

  /** What a reader of the instruction can check: no strategy field came out empty, and cutting the reason
      at a thousand characters did not leave a space at its end. */
  predicate Kept(i: Instruction) {
    && (i.strategy.Some? ==> FieldsKept(i.strategy.value))
    && (i.reason.Some? ==> Stripped(i.reason.value))
  }

  lemma NormalRowIsShaped(host: Host, raw: Raw, ordinal: nat)
    requires NormalRow(host, raw, ordinal).Ok?
    ensures Shaped(NormalRow(host, raw, ordinal).value)
  {
    var i := NormalRow(host, raw, ordinal).value;
    if CarriesStrategy(i.kind) { CompleteIsShaped(host, raw.strategy, ordinal); }
  }

  lemma ReasonAgain(host: Host, reason: string)
    requires Sane(host) && 1 <= |reason| <= 1000
    ensures OptionalText(host, Text(reason)) == Some(reason) <==> Stripped(reason)
  {
    StripIdempotent(reason);
    StripShortens(reason);
    if Stripped(reason) { StrippedIsFixed(reason); }
  }

  lemma StripShortens(s: string)
    ensures |Strip(s)| <= |s|
  {
    var i, j := StripIsTheMiddle(s);
  }

  lemma StrategyAgain(host: Host, i: Instruction, ordinal: nat)
    requires Sane(host) && Shaped(i)
    ensures StrategyOf(host, i.kind, RowOf(i).strategy, ordinal) == Ok(i.strategy) <==>
      (i.strategy.Some? ==> FieldsKept(i.strategy.value))
  {
    if i.strategy.Some? { CompleteAgain(host, i.strategy.value, ordinal); }
  }

  lemma TargetAgain(host: Host, id: Option<int>, ordinal: nat)
    requires Sane(host) && (id.Some? ==> id.value > 0)
    ensures OptionalPositive(host, if id.Some? then Int(id.value) else Null, ordinal) == Ok(id)
  {
  }

  /** Confidence and targets in range; nothing is said of the strategy and the reason. */
  predicate Ranged(i: Instruction) {
    0.0 <= i.confidence <= 1.0 && (i.lifecycle.Some? ==> i.lifecycle.value > 0) &&
      (i.thread.Some? ==> i.thread.value > 0)
  }

  /** A written instruction read again: only its strategy and its reason are looked at afresh. */
  lemma RowAgainIs(host: Host, i: Instruction, ordinal: nat)
    requires Sane(host) && Ranged(i)
    ensures NormalRow(host, RowOf(i), ordinal) ==
      match StrategyOf(host, i.kind, RowOf(i).strategy, ordinal)
      case Ok(strategy) => Ok(i.(strategy := strategy, reason := OptionalText(host, RowOf(i).reason)))
      case Err(p) => Err(p)
  {
    var raw := RowOf(i);
    assert KindOf(Lower(Strip(StrOr(host, raw.kind)))) == Some(i.kind) && Truthy(raw.kind) by {
      KindAgain(host, i.kind);
    }
    assert OptionalPositive(host, raw.lifecycle.value, ordinal) == Ok(i.lifecycle) by {
      TargetAgain(host, i.lifecycle, ordinal);
    }
    assert OptionalPositive(host, raw.thread.value, ordinal) == Ok(i.thread) by {
      TargetAgain(host, i.thread, ordinal);
    }
    assert host.float(raw.confidence) == Some(i.confidence);
  }

  /** Normalising an accepted instruction again gives it back exactly when it was kept; whatever comes out
      has its kind, and when no strategy field came out empty nothing but the reason can differ. */
  lemma NormalRowAgainIff(host: Host, i: Instruction, ordinal: nat)
    requires Sane(host) && Shaped(i)
    ensures NormalRow(host, RowOf(i), ordinal) == Ok(i) <==> Kept(i)
    ensures NormalRow(host, RowOf(i), ordinal).Ok? ==> NormalRow(host, RowOf(i), ordinal).value.kind == i.kind
    ensures (i.strategy.Some? ==> FieldsKept(i.strategy.value)) ==>
      NormalRow(host, RowOf(i), ordinal).Ok? && NormalRow(host, RowOf(i), ordinal).value.(reason := i.reason) == i
  {
    RowAgainIs(host, i, ordinal);
    StrategyAgain(host, i, ordinal);
    if i.reason.Some? { ReasonAgain(host, i.reason.value); }
  }

  // ---------------------------------------------------------------- a field of spaces

  /** An entry whose take profit is two spaces. */
  const SPACED: Fields := map[
    "symbol" := Text("BTC"), "side" := Text("long"), "entry" := Text("1"), "stop_loss" := Text("1"),
      "take_profit" := Text("  ")]

  function EntryWith(profit: Json): Instruction {
    Instruction(Entry, 1.0, None, Some(SPACED["take_profit" := profit]), None, None, None)
  }

  lemma SpacedFields(profit: Json)
    ensures var s := SPACED["take_profit" := profit];
      && Get(s, "symbol") == Text("BTC") && Get(s, "side") == Text("long") && Get(s, "entry") == Text("1")
      && Get(s, "stop_loss") == Text("1") && Get(s, "take_profit") == profit
  {
    KeysDiffer();
  }

  lemma SpacedTexts()
    ensures Strip("  ") == "" && Upper(Strip("BTC")) == "BTC" && Lower(Strip("long")) == "long" && Strip("1") == "1"
  {
    assert "  "[1..] == " " && " "[1..] == "";
    assert StripLeft("  ") == StripLeft(" ") == StripLeft("") == "";
    StrippedIsFixed("BTC");
    StrippedIsFixed("long");
    StrippedIsFixed("1");
  }

  lemma SpacedStrategy(host: Host, profit: Json, ordinal: nat)
    requires Sane(host) && (profit == Text("  ") || profit == Text(""))
    ensures CompleteStrategy(host, Object(SPACED["take_profit" := profit]), ordinal) ==
      Ok(SPACED["take_profit" := if profit == Text("") then Null else Text("")])
  {
    var s := SPACED["take_profit" := profit];
    SpacedFields(profit);
    SpacedTexts();
    KeysDiffer();
    var next := if profit == Text("") then Null else Text("");
    var trimmed := s["symbol" := Text("BTC")]["side" := Text("long")]["entry" := Text("1")]["stop_loss" := Text("1")];
    assert trimmed["take_profit" := next] == SPACED["take_profit" := next];
  }

  /** The first pass leaves an empty text, which the second one reads as no take profit at all. */
  lemma SpacesBecomeNull(host: Host, ordinal: nat)
    requires Sane(host)
    ensures NormalRow(host, RowOf(EntryWith(Text("  "))), ordinal) == Ok(EntryWith(Text("")))
    ensures NormalRow(host, RowOf(EntryWith(Text(""))), ordinal) == Ok(EntryWith(Null)) &&
      EntryWith(Null) != EntryWith(Text(""))
  {
    RowAgainIs(host, EntryWith(Text("  ")), ordinal);
    RowAgainIs(host, EntryWith(Text("")), ordinal);
    SpacedStrategy(host, Text("  "), ordinal);
    SpacedStrategy(host, Text(""), ordinal);
    SpacedFields(Null);
    SpacedFields(Text(""));
  }

  // ---------------------------------------------------------------- the whole message again

  function RowsOf(rows: seq<Instruction>): (r: seq<Raw>)
    ensures |r| == |rows| && forall i | 0 <= i < |rows| :: r[i] == RowOf(rows[i])
  {
    seq(|rows|, i requires 0 <= i < |rows| => RowOf(rows[i]))
  }

  predicate AllKept(rows: seq<Instruction>) {
    forall i | 0 <= i < |rows| :: Shaped(rows[i]) && Kept(rows[i])
  }

  lemma AllKeptSplit(rows: seq<Instruction>) returns (init: seq<Instruction>, last: Instruction)
    requires rows != [] && AllKept(rows)
    ensures rows == init + [last] && |init| < |rows| && AllKept(init) && Shaped(last) && Kept(last)
    ensures RowsOf(rows) == RowsOf(init) + [RowOf(last)]
  {
    init, last := rows[..|rows| - 1], rows[|rows| - 1];
  }

  lemma {:induction false} RowsAgain(host: Host, rows: seq<Instruction>)
    requires Sane(host) && AllKept(rows)
    ensures NormalRows(host, RowsOf(rows)) == Ok(rows)
    decreases |rows|
  {
    if rows != [] {
      var init, last := AllKeptSplit(rows);
      RowsAgain(host, init);
      NormalRowAgainIff(host, last, |init|);
      RowsStep(host, RowsOf(init), RowOf(last), init, last);
    }
  }

  lemma SameKindsSorted(a: seq<Instruction>, b: seq<Instruction>)
    requires |a| == |b| && Sorted(a) && forall i | 0 <= i < |a| :: a[i].kind == b[i].kind
    ensures Sorted(b)
  {
    forall i, j | 0 <= i < j < |b| ensures Priority(b[i].kind) <= Priority(b[j].kind) {
      assert Priority(a[i].kind) <= Priority(a[j].kind);
    }
  }

  lemma AcceptedAreShaped(host: Host, raws: seq<Raw>)
    requires Normalize(host, raws).Ok?
    ensures forall i | 0 <= i < |Normalize(host, raws).value| :: Shaped(Normalize(host, raws).value[i])
  {
    AcceptedInstructionsAre(host, raws);
    var out, rows := Normalize(host, raws).value, NormalRows(host, raws).value;
    RowsCount(host, raws);
    forall i | 0 <= i < |out| ensures Shaped(out[i]) {
      assert out[i] in multiset(out);
      assert out[i] in multiset(rows);
      var j :| 0 <= j < |rows| && rows[j] == out[i];
      RowsAt(host, raws, j);
      NormalRowIsShaped(host, raws[j], j);
    }
  }

  /** Writing the accepted instructions back and normalising them again gives the same instructions in
      the same order exactly when each of them was kept. */
  lemma NormalizeAgainIff(host: Host, raws: seq<Raw>)
    requires Sane(host) && Normalize(host, raws).Ok?
    ensures var out := Normalize(host, raws).value;
      Normalize(host, RowsOf(out)) == Ok(out) <==> forall i | 0 <= i < |out| :: Kept(out[i])
  {
    var out := Normalize(host, raws).value;
    AcceptedInstructionsAre(host, raws);
    AcceptedAreShaped(host, raws);
    if forall i | 0 <= i < |out| :: Kept(out[i]) {
      RowsAgain(host, out);
      SortedIsOrdered(out);
    } else if Normalize(host, RowsOf(out)) == Ok(out) {
      AgainMeansKept(host, out);
    }
  }

  lemma SameKindAgain(host: Host, out: seq<Instruction>, i: nat)
    requires Sane(host) && i < |out| && Shaped(out[i]) && NormalRows(host, RowsOf(out)).Ok?
    ensures |NormalRows(host, RowsOf(out)).value| == |out| && NormalRows(host, RowsOf(out)).value[i].kind == out[i].kind
  {
    RowsAt(host, RowsOf(out), i);
    NormalRowAgainIff(host, out[i], i);
  }

  lemma KeptAgain(host: Host, out: seq<Instruction>, i: nat)
    requires Sane(host) && i < |out| && Shaped(out[i]) && NormalRows(host, RowsOf(out)) == Ok(out)
    ensures Kept(out[i])
  {
    RowsAt(host, RowsOf(out), i);
    NormalRowAgainIff(host, out[i], i);
  }

  lemma AgainMeansKept(host: Host, out: seq<Instruction>)
    requires Sane(host) && Sorted(out) && (forall i | 0 <= i < |out| :: Shaped(out[i]))
    requires Normalize(host, RowsOf(out)) == Ok(out)
    ensures forall i | 0 <= i < |out| :: Kept(out[i])
  {
    var again := NormalRows(host, RowsOf(out)).value;
    RowsCount(host, RowsOf(out));
    forall i | 0 <= i < |out| ensures again[i].kind == out[i].kind { SameKindAgain(host, out, i); }
    SameKindsSorted(out, again);
    SortedIsOrdered(again);
    forall i | 0 <= i < |out| ensures Kept(out[i]) { KeptAgain(host, out, i); }
  }
}
