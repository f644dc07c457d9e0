/** What the contract makes of one raw row and of a whole message, said of the raw values alone: when a
    row is accepted and as what, which of its faults is reported, and which rows make up the answer. */
module InstructionsRows {
  import opened Options
  import opened Texts
  import opened Instructions
  import opened InstructionsTheorems

  // ---------------------------------------------------------------- reading values

  /** The values that count as absent in a condition. */
  ghost predicate Falsy(j: Json) {
    || j == Null || j == Bool(false) || j == Int(0) || j == Float(0.0) || j == Text("")
    || j == List([]) || j == Object(map[])
  }

  lemma FalsyIff(j: Json)
    ensures Truthy(j) <==> !Falsy(j)
  {
    if j.Object? && |j.fields| == 0 { assert j.fields == map[]; }
  }

  /** The texts that name each kind, the older ones included. */
  ghost predicate Names(text: string, kind: Kind) {
    match kind
    case CancelPendingEntry => text in {"cancel_pending_entry", "cancel_entry"}
    case ReplaceEntry => text == "replace_entry"
    case FullExit => text in {"full_exit", "exit_full"}
    case PartialExit => text in {"partial_exit", "exit_partial"}
    case PartialTakeProfit => text == "partial_take_profit"
    case MoveStopToProtect => text == "move_stop_to_protect"
    case HoldUpdate => text in {"hold_update", "position_update"}
    case RiskUpdate => text == "risk_update"
    case Entry => text == "entry"
  }

  lemma NamesIff(text: string, kind: Kind)
    ensures KindOf(text) == Some(kind) <==> Names(text, kind)
  {
    assert |"cancel_pending_entry"| == 20 && |"move_stop_to_protect"| == 20 && "cancel_pending_entry"[0] == 'c' &&
      "move_stop_to_protect"[0] == 'm';
    assert |"hold_update"| == 11 && |"risk_update"| == 11 && "hold_update"[0] == 'h' && "risk_update"[0] == 'r';
    assert |"partial_exit"| == 12 && |"cancel_entry"| == 12 && |"exit_partial"| == 12;
    assert "partial_exit"[0] == 'p' && "cancel_entry"[0] == 'c' && "exit_partial"[0] == 'e';
    assert |"full_exit"| == 9 && |"exit_full"| == 9 && "full_exit"[0] == 'f' && "exit_full"[0] == 'e';
    assert |"replace_entry"| == 13 && |"partial_take_profit"| == 19 && |"position_update"| == 15 && |"entry"| == 5;
  }

  /** The text a row names its kind with: `kind`, or `action` where that is absent, in lower case. */
  ghost function KindTextOf(host: Host, raw: Raw): string
    requires raw.Row?
  {
    var named := if Falsy(raw.kind) then raw.action else raw.kind;
    Lower(Strip(if Falsy(named) then "" else host.str(named)))
  }

  // ---------------------------------------------------------------- the parts of a row

  predicate Given(o: Fields, key: string) { key in o && o[key] != Null && o[key] != Text("") }

  predicate Missing(j: Json) { j == Null || j == Text("") }

  /** A strategy that has what an entry needs. */
  ghost predicate Whole(host: Host, s: Fields) {
    && Given(s, "symbol") && Given(s, "side") && Given(s, "entry") && Given(s, "stop_loss")
    && Lower(Strip(host.str(s["side"]))) in {"long", "short"}
  }

  /** The same strategy with its five texts cleaned, and every other field as it was. */
  ghost predicate Cleaned(host: Host, s: Fields, t: Fields)
    requires Whole(host, s)
  {
    && t.Keys == s.Keys + {"take_profit"}
    && t["symbol"] == Text(Upper(Strip(host.str(s["symbol"]))))
    && t["side"] == Text(Lower(Strip(host.str(s["side"]))))
    && t["entry"] == Text(Strip(host.str(s["entry"])))
    && t["stop_loss"] == Text(Strip(host.str(s["stop_loss"])))
    && t["take_profit"] == (if Given(s, "take_profit") then Text(Strip(host.str(s["take_profit"]))) else Null)
    && forall key | key in s && key !in {"symbol", "side", "entry", "stop_loss", "take_profit"} :: t[key] == s[key]
  }

  /** An entry or a replacement carries a whole strategy, any other kind none. */
  ghost predicate StrategyFits(host: Host, kind: Kind, value: Json, strategy: Option<Fields>) {
    if kind == Entry || kind == ReplaceEntry then
      && value.Object? && Whole(host, value.fields)
      && strategy.Some? && Cleaned(host, value.fields, strategy.value)
    else value in {Null, Object(map[])} && strategy == None
  }

  ghost predicate StrategyFault(host: Host, kind: Kind, value: Json, n: nat, problem: Problem) {
    if kind != Entry && kind != ReplaceEntry then
      value !in {Null, Object(map[])} && problem == ManagementHasStrategy(n)
    else if !value.Object? then problem == StrategyMissing(n)
    else if !(Given(value.fields, "symbol") && Given(value.fields, "side") && Given(value.fields, "entry") &&
              Given(value.fields, "stop_loss")) then problem == StrategyIncomplete(n)
    else Lower(Strip(host.str(value.fields["side"]))) !in {"long", "short"} && problem == SideInvalid(n)
  }

  /** A target id is missing or a positive integer. */
  ghost predicate IdFits(host: Host, value: Json, id: Option<int>) {
    if Missing(value) then id == None else host.int_(value) == id && id.Some? && id.value > 0
  }

  /** A reason is its stripped text, cut at a thousand characters; nothing is left of a blank one. */
  ghost predicate ReasonFits(host: Host, value: Json, reason: Option<string>) {
    var t := Strip(host.str(value));
    if Missing(value) || t == "" then reason == None
    else reason == Some(if |t| <= 1000 then t else t[..1000])
  }

  ghost predicate ParametersFit(value: Json, parameters: Option<Fields>) {
    if value == Null then parameters == None else value.Object? && parameters == Some(value.fields)
  }

  /** The row's own field, null included, else the target's. */
  function Own(own: Option<Json>, target: Json, key: string): Json {
    match own
    case Some(value) => value
    case None => if target.Object? && key in target.fields then target.fields[key] else Null
  }

  /** The row stands for exactly this instruction. */
  ghost predicate StandsFor(host: Host, raw: Raw, i: Instruction) {
    && raw.Row? && Names(KindTextOf(host, raw), i.kind)
    && host.float(raw.confidence) == Some(i.confidence) && 0.0 <= i.confidence <= 1.0
    && StrategyFits(host, i.kind, raw.strategy, i.strategy)
    && IdFits(host, Own(raw.lifecycle, raw.target, "lifecycle_id"), i.lifecycle)
    && IdFits(host, Own(raw.thread, raw.target, "thread_id"), i.thread)
    && ParametersFit(raw.parameters, i.parameters) && ReasonFits(host, raw.reason, i.reason)
  }

  lemma KeysDiffer()
    ensures "symbol" != "side" && "symbol" != "entry" && "symbol" != "stop_loss" && "symbol" != "take_profit"
    ensures "side" != "entry" && "side" != "stop_loss" && "side" != "take_profit"
    ensures "entry" != "stop_loss" && "entry" != "take_profit" && "stop_loss" != "take_profit"
  {
    assert |"symbol"| == 6 && |"side"| == 4 && |"entry"| == 5 && |"stop_loss"| == 9 && |"take_profit"| == 11;
  }

  lemma CleanedIsUnique(host: Host, s: Fields, t: Fields, u: Fields)
    requires Whole(host, s) && Cleaned(host, s, t) && Cleaned(host, s, u)
    ensures t == u
  {
    forall key | key in t ensures t[key] == u[key] {
    }
  }

  lemma CompleteIs(host: Host, value: Json, n: nat)
    ensures CompleteStrategy(host, value, n).Ok? <==> value.Object? && Whole(host, value.fields)
    ensures CompleteStrategy(host, value, n).Ok? ==>
              Cleaned(host, value.fields, CompleteStrategy(host, value, n).value)
  {
    KeysDiffer();
  }

  lemma StrategyIff(host: Host, kind: Kind, value: Json, n: nat, strategy: Option<Fields>)
    ensures StrategyOf(host, kind, value, n) == Ok(strategy) <==> StrategyFits(host, kind, value, strategy)
  {
    CompleteIs(host, value, n);
    if StrategyFits(host, kind, value, strategy) && CarriesStrategy(kind) {
      CleanedIsUnique(host, value.fields, strategy.value, CompleteStrategy(host, value, n).value);
    }
  }

  lemma StrategyFails(host: Host, kind: Kind, value: Json, n: nat)
    ensures StrategyOf(host, kind, value, n).Err? ==>
              StrategyFault(host, kind, value, n, StrategyOf(host, kind, value, n).problem)
  {
  }

  lemma IdIff(host: Host, value: Json, n: nat, id: Option<int>)
    ensures OptionalPositive(host, value, n) == Ok(id) <==> IdFits(host, value, id)
    ensures OptionalPositive(host, value, n).Err? ==> OptionalPositive(host, value, n) == Err(TargetInvalid(n))
  {
  }

  lemma ReasonIff(host: Host, value: Json, reason: Option<string>)
    ensures OptionalText(host, value) == reason <==> ReasonFits(host, value, reason)
  {
  }

  lemma RowPartsAre(host: Host, raw: Raw)
    requires raw.Row?
    ensures KindTextOf(host, raw) == Lower(Strip(StrOr(host, if Truthy(raw.kind) then raw.kind else raw.action)))
    ensures Own(raw.lifecycle, raw.target, "lifecycle_id") == TargetField(raw.lifecycle, raw.target, "lifecycle_id")
    ensures Own(raw.thread, raw.target, "thread_id") == TargetField(raw.thread, raw.target, "thread_id")
  {
    FalsyIff(raw.kind);
    FalsyIff(if Falsy(raw.kind) then raw.action else raw.kind);
  }

  lemma AcceptedInParts(host: Host, raw: Raw, n: nat, i: Instruction)
    requires raw.Row?
    ensures NormalRow(host, raw, n) == Ok(i) <==>
            && KindOf(KindTextOf(host, raw)) == Some(i.kind)
            && host.float(raw.confidence) == Some(i.confidence) && 0.0 <= i.confidence <= 1.0
            && StrategyOf(host, i.kind, raw.strategy, n) == Ok(i.strategy)
            && OptionalPositive(host, Own(raw.lifecycle, raw.target, "lifecycle_id"), n) == Ok(i.lifecycle)
            && OptionalPositive(host, Own(raw.thread, raw.target, "thread_id"), n) == Ok(i.thread)
            && ParametersFit(raw.parameters, i.parameters) && OptionalText(host, raw.reason) == i.reason
  {
    RowPartsAre(host, raw);
  }

  /** A row is accepted exactly when there is an instruction it stands for, and then as that one. */
  lemma RowIsAcceptedIff(host: Host, raw: Raw, n: nat, i: Instruction)
    ensures NormalRow(host, raw, n) == Ok(i) <==> StandsFor(host, raw, i)
  {
    if raw.Row? {
      AcceptedInParts(host, raw, n, i);
      NamesIff(KindTextOf(host, raw), i.kind);
      StrategyIff(host, i.kind, raw.strategy, n, i.strategy);
      IdIff(host, Own(raw.lifecycle, raw.target, "lifecycle_id"), n, i.lifecycle);
      IdIff(host, Own(raw.thread, raw.target, "thread_id"), n, i.thread);
      ReasonIff(host, raw.reason, i.reason);
    }
  }

  ghost predicate NamesAKind(text: string) { exists kind :: Names(text, kind) }

  ghost predicate IdIsUsable(host: Host, value: Json) { exists id :: IdFits(host, value, id) }

  /** The faults that come after the kind and the confidence, in the order of the contract. */
  ghost predicate LaterFault(host: Host, raw: Raw, kind: Kind, n: nat, problem: Problem)
    requires raw.Row?
  {
    if StrategyFault(host, kind, raw.strategy, n, problem) then forall t :: !StrategyFits(host, kind, raw.strategy, t)
    else if !IdIsUsable(host, Own(raw.lifecycle, raw.target, "lifecycle_id")) ||
            !IdIsUsable(host, Own(raw.thread, raw.target, "thread_id")) then problem == TargetInvalid(n)
    else raw.parameters != Null && !raw.parameters.Object? && problem == ParametersNotObject(n)
  }

  lemma IdIsUsableIff(host: Host, value: Json, n: nat)
    ensures IdIsUsable(host, value) <==> OptionalPositive(host, value, n).Ok?
    ensures OptionalPositive(host, value, n).Err? ==> OptionalPositive(host, value, n) == Err(TargetInvalid(n))
  {
    forall id ensures OptionalPositive(host, value, n) == Ok(id) <==> IdFits(host, value, id) {
      IdIff(host, value, n, id);
    }
    if OptionalPositive(host, value, n).Ok? { assert IdFits(host, value, OptionalPositive(host, value, n).value); }
  }

  lemma NamedKindIff(text: string)
    ensures NamesAKind(text) <==> KindOf(text).Some?
  {
    forall kind ensures KindOf(text) == Some(kind) <==> Names(text, kind) { NamesIff(text, kind); }
    if KindOf(text).Some? { assert Names(text, KindOf(text).value); }
  }

  lemma LaterFaultIs(host: Host, raw: Raw, kind: Kind, n: nat, problem: Problem)
    requires raw.Row? && NormalRow(host, raw, n) == Err(problem) && KindOf(KindTextOf(host, raw)) == Some(kind)
    requires host.float(raw.confidence).Some? && 0.0 <= host.float(raw.confidence).value <= 1.0
    ensures LaterFault(host, raw, kind, n, problem)
  {
    RowPartsAre(host, raw);
    StrategyFails(host, kind, raw.strategy, n);
    forall t ensures StrategyOf(host, kind, raw.strategy, n) == Ok(t) <==> StrategyFits(host, kind, raw.strategy, t) {
      StrategyIff(host, kind, raw.strategy, n, t);
    }
    IdIsUsableIff(host, Own(raw.lifecycle, raw.target, "lifecycle_id"), n);
    IdIsUsableIff(host, Own(raw.thread, raw.target, "thread_id"), n);
  }

  /** The fault a refused row is reported with, the first in the order of the contract: its shape, its kind,
      its confidence, its strategy, its two targets, its parameters. */
  lemma RowFailsWith(host: Host, raw: Raw, n: nat, problem: Problem)
    requires NormalRow(host, raw, n) == Err(problem)
    ensures
      if raw == NotObject then problem == RowNotObject(n)
      else if !NamesAKind(KindTextOf(host, raw)) then problem == KindInvalid(n)
      else if host.float(raw.confidence) == None || host.float(raw.confidence).value < 0.0 ||
              host.float(raw.confidence).value > 1.0 then problem == ConfidenceInvalid(n)
      else forall kind | Names(KindTextOf(host, raw), kind) :: LaterFault(host, raw, kind, n, problem)
  {
    if raw.Row? {
      RowPartsAre(host, raw);
      NamedKindIff(KindTextOf(host, raw));
      if NamesAKind(KindTextOf(host, raw)) && host.float(raw.confidence).Some? &&
         0.0 <= host.float(raw.confidence).value <= 1.0 {
        forall kind | Names(KindTextOf(host, raw), kind) ensures LaterFault(host, raw, kind, n, problem) {
          NamesIff(KindTextOf(host, raw), kind);
          LaterFaultIs(host, raw, kind, n, problem);
        }
      }
    }
  }

  // ---------------------------------------------------------------- the whole message

  /** Where a kind stands in the answer: cancels, exits, stops and risk first, then replacements, then
      holds, then entries. */
  ghost predicate Stands(kind: Kind, place: nat) {
    && place <= 3
    && (place == 1 <==> kind == ReplaceEntry) && (place == 2 <==> kind == HoldUpdate) && (place == 3 <==> kind == Entry)
  }

  lemma PriorityIs(kind: Kind)
    ensures Stands(kind, Priority(kind))
  {
  }

  /** Alike in everything but how sure the recogniser is and why. */
  predicate Repeats(i: Instruction, j: Instruction) {
    && i.kind == j.kind && i.strategy == j.strategy && i.lifecycle == j.lifecycle && i.thread == j.thread
    && i.parameters == j.parameters
  }

  lemma DistinctMeans(rows: seq<Instruction>)
    ensures Distinct(rows) <==> forall i, j | 0 <= i < j < |rows| :: !Repeats(rows[i], rows[j])
  {
    assert forall i, j | 0 <= i < j < |rows| ::
      Repeats(rows[i], rows[j]) <==> IdentityOf(rows[i]) == IdentityOf(rows[j]);
  }

  /** Each row stands for the instruction at its place. */
  ghost predicate AllStandFor(host: Host, raws: seq<Raw>, rows: seq<Instruction>) {
    |rows| == |raws| && forall i | 0 <= i < |raws| :: StandsFor(host, raws[i], rows[i])
  }

  /** The first row that stands for nothing, and its fault. */
  ghost predicate FirstFault(host: Host, raws: seq<Raw>, n: nat, problem: Problem)
    requires n < |raws|
  {
    && (exists rows :: AllStandFor(host, raws[..n], rows))
    && (forall i :: !StandsFor(host, raws[n], i)) && NormalRow(host, raws[n], n) == Err(problem)
  }

  lemma AllStandForSnoc(host: Host, raws: seq<Raw>, raw: Raw, rows: seq<Instruction>, row: Instruction)
    ensures AllStandFor(host, raws + [raw], rows + [row]) <==>
            AllStandFor(host, raws, rows) && StandsFor(host, raw, row)
  {
    var moreRaws, more := raws + [raw], rows + [row];
    if |rows| == |raws| {
      assert moreRaws[|raws|] == raw && more[|rows|] == row;
      assert forall i | 0 <= i < |raws| :: moreRaws[i] == raws[i] && more[i] == rows[i];
    }
  }

  lemma RowsSnoc(host: Host, raws: seq<Raw>, raw: Raw, rows: seq<Instruction>, row: Instruction)
    ensures NormalRows(host, raws + [raw]) == Ok(rows + [row]) <==>
            NormalRows(host, raws) == Ok(rows) && NormalRow(host, raw, |raws|) == Ok(row)
  {
    assert (raws + [raw])[..|raws|] == raws;
    if NormalRows(host, raws + [raw]) == Ok(rows + [row]) {
      var init, last := NormalRows(host, raws).value, NormalRow(host, raw, |raws|).value;
      assert init == (init + [last])[..|init|] && rows == (rows + [row])[..|rows|];
    }
  }

  lemma {:induction false} RowsStandFor(host: Host, raws: seq<Raw>, rows: seq<Instruction>)
    ensures NormalRows(host, raws) == Ok(rows) <==> AllStandFor(host, raws, rows)
  {
    if raws != [] && rows != [] {
      var init, last, rs, r := raws[..|raws| - 1], raws[|raws| - 1], rows[..|rows| - 1], rows[|rows| - 1];
      assert raws == init + [last] && rows == rs + [r];
      RowsStandFor(host, init, rs);
      RowIsAcceptedIff(host, last, |init|, r);
      AllStandForSnoc(host, init, last, rs, r);
      RowsSnoc(host, init, last, rs, r);
    }
  }

  lemma {:induction false} RowsFail(host: Host, raws: seq<Raw>, problem: Problem) returns (n: nat)
    requires NormalRows(host, raws) == Err(problem)
    ensures n < |raws| && FirstFault(host, raws, n, problem)
  {
    var init, last := raws[..|raws| - 1], raws[|raws| - 1];
    if NormalRows(host, init).Err? {
      n := RowsFail(host, init, problem);
      assert raws[n] == init[n] && raws[..n] == init[..n];
    } else {
      n := |init|;
      RowsStandFor(host, init, NormalRows(host, init).value);
      forall i ensures !StandsFor(host, last, i) { RowIsAcceptedIff(host, last, n, i); }
    }
  }

  ghost predicate NoRepeats(rows: seq<Instruction>) {
    forall i, j | 0 <= i < j < |rows| :: !Repeats(rows[i], rows[j])
  }

  /** No instruction stands before one of an earlier place. */
  ghost predicate InPlaces(out: seq<Instruction>) {
    forall i, j, p, q | 0 <= i < j < |out| && Stands(out[i].kind, p) && Stands(out[j].kind, q) :: p <= q
  }

  lemma SortedIsInPlaces(out: seq<Instruction>)
    requires Sorted(out)
    ensures InPlaces(out)
  {
    forall i, j, p, q | 0 <= i < j < |out| && Stands(out[i].kind, p) && Stands(out[j].kind, q) ensures p <= q {
      PriorityIs(out[i].kind);
      PriorityIs(out[j].kind);
    }
  }

  lemma AcceptedIff(host: Host, raws: seq<Raw>)
    ensures Normalize(host, raws).Ok? <==>
            |raws| <= 8 && NormalRows(host, raws).Ok? && NoRepeats(NormalRows(host, raws).value)
  {
    if NormalRows(host, raws).Ok? { DistinctMeans(NormalRows(host, raws).value); }
  }

  /** A message is accepted exactly when it has at most eight rows, each standing for an instruction, no two
      of them repeating one another; the answer is those instructions by place. */
  lemma MessageIsAcceptedIff(host: Host, raws: seq<Raw>)
    ensures Normalize(host, raws).Ok? <==>
            |raws| <= 8 && exists rows :: AllStandFor(host, raws, rows) && NoRepeats(rows)
    ensures Normalize(host, raws).Ok? ==>
            && InPlaces(Normalize(host, raws).value)
            && forall rows | AllStandFor(host, raws, rows) :: multiset(Normalize(host, raws).value) == multiset(rows)
  {
    AcceptedIff(host, raws);
    forall rows ensures NormalRows(host, raws) == Ok(rows) <==> AllStandFor(host, raws, rows) {
      RowsStandFor(host, raws, rows);
    }
    if NormalRows(host, raws).Ok? { assert AllStandFor(host, raws, NormalRows(host, raws).value); }
    if Normalize(host, raws).Ok? {
      AcceptedInstructionsAre(host, raws);
      SortedIsInPlaces(Normalize(host, raws).value);
    }
  }

  /** A refused message is refused for its length first, then for its first faulty row, then for a repeat. */
  lemma MessageFailsWith(host: Host, raws: seq<Raw>, problem: Problem)
    requires Normalize(host, raws) == Err(problem)
    ensures
      if |raws| > 8 then problem == CountExceeded
      else
        || (exists n: nat :: n < |raws| && FirstFault(host, raws, n, problem))
        || (&& problem == Duplicate
            && exists rows :: AllStandFor(host, raws, rows) && !NoRepeats(rows))
  {
    if |raws| <= 8 {
      if NormalRows(host, raws).Err? {
        var n := RowsFail(host, raws, problem);
      } else {
        var rows := NormalRows(host, raws).value;
        RowsStandFor(host, raws, rows);
        DistinctMeans(rows);
      }
    }
  }
}
