/** The per-action contract of an authoritative message: bounded, canonical, ordered instructions. */
module Instructions {
  import opened Options
  import opened Texts

  datatype Json =
    | Null | Bool(flag: bool) | Int(n: int) | Float(x: real) | Text(s: string)
    | List(items: seq<Json>) | Object(fields: Fields)

  type Fields = map<string, Json>

  /** The host language's conversions of a JSON value to text, to a number and to an integer. */
  datatype Host = Host(str: Json -> string, float: Json -> Option<real>, int_: Json -> Option<int>)

  /** Text converts to itself, a number to itself. */
  ghost predicate Sane(host: Host) {
    && (forall s :: host.str(Text(s)) == s)
    && (forall x :: host.float(Float(x)) == Some(x))
    && (forall n :: host.int_(Int(n)) == Some(n))
  }

  datatype Kind =
    | CancelPendingEntry | ReplaceEntry | FullExit | PartialExit | PartialTakeProfit | MoveStopToProtect
    | HoldUpdate | RiskUpdate | Entry

  /** The fields of one raw row the contract reads; an absent field reads as null. */
  datatype Raw =
    | NotObject
    | Row(kind: Json, action: Json, confidence: Json, reason: Json, strategy: Json, target: Json,
          lifecycle: Option<Json>, thread: Option<Json>, parameters: Json)

  datatype Instruction = Instruction(
    kind: Kind, confidence: real, reason: Option<string>, strategy: Option<Fields>,
    lifecycle: Option<int>, thread: Option<int>, parameters: Option<Fields>)

  datatype Problem =
    | CountExceeded | Duplicate
    | RowNotObject(ordinal: nat) | KindInvalid(ordinal: nat) | ConfidenceInvalid(ordinal: nat)
    | StrategyMissing(ordinal: nat) | StrategyIncomplete(ordinal: nat) | SideInvalid(ordinal: nat)
    | ManagementHasStrategy(ordinal: nat) | TargetInvalid(ordinal: nat) | ParametersNotObject(ordinal: nat)

  datatype Result<+T> = Ok(value: T) | Err(problem: Problem)

  const MOST := 8

  // ---------------------------------------------------------------- reading values

  function Get(o: Fields, key: string): Json { if key in o then o[key] else Null }

  predicate Blank(j: Json) { j == Null || j == Text("") }

  predicate Truthy(j: Json) {
    match j
    case Null => false
    case Bool(b) => b
    case Int(n) => n != 0
    case Float(x) => x != 0.0
    case Text(s) => s != ""
    case List(items) => items != []
    case Object(fields) => |fields| > 0
  }

  function StrOr(host: Host, j: Json): string { if Truthy(j) then host.str(j) else "" }

  function KindOf(text: string): Option<Kind> {
    if text == "cancel_pending_entry" || text == "cancel_entry" then Some(CancelPendingEntry)
    else if text == "replace_entry" then Some(ReplaceEntry)
    else if text == "full_exit" || text == "exit_full" then Some(FullExit)
    else if text == "partial_exit" || text == "exit_partial" then Some(PartialExit)
    else if text == "partial_take_profit" then Some(PartialTakeProfit)
    else if text == "move_stop_to_protect" then Some(MoveStopToProtect)
    else if text == "hold_update" || text == "position_update" then Some(HoldUpdate)
    else if text == "risk_update" then Some(RiskUpdate)
    else if text == "entry" then Some(Entry)
    else None
  }

  function KindText(k: Kind): string {
    match k
    case CancelPendingEntry => "cancel_pending_entry"
    case ReplaceEntry => "replace_entry"
    case FullExit => "full_exit"
    case PartialExit => "partial_exit"
    case PartialTakeProfit => "partial_take_profit"
    case MoveStopToProtect => "move_stop_to_protect"
    case HoldUpdate => "hold_update"
    case RiskUpdate => "risk_update"
    case Entry => "entry"
  }

  function Priority(k: Kind): nat {
    match k
    case ReplaceEntry => 1
    case HoldUpdate => 2
    case Entry => 3
    case _ => 0
  }

  predicate CarriesStrategy(k: Kind) { k == Entry || k == ReplaceEntry }

  // ---------------------------------------------------------------- one row

  function Trimmed(host: Host, j: Json): string { Strip(host.str(j)) }

  function CompleteStrategy(host: Host, value: Json, ordinal: nat): Result<Fields> {
    if !value.Object? then Err(StrategyMissing(ordinal))
    else
      var s := value.fields;
      if Blank(Get(s, "symbol")) || Blank(Get(s, "side")) || Blank(Get(s, "entry")) || Blank(Get(s, "stop_loss"))
      then Err(StrategyIncomplete(ordinal))
      else
        var side := Lower(Trimmed(host, s["side"]));
        if side != "long" && side != "short" then Err(SideInvalid(ordinal))
        else
          var profit := Get(s, "take_profit");
          Ok(s["symbol" := Text(Upper(Trimmed(host, s["symbol"])))]
              ["side" := Text(side)]
              ["entry" := Text(Trimmed(host, s["entry"]))]
              ["stop_loss" := Text(Trimmed(host, s["stop_loss"]))]
              ["take_profit" := if Blank(profit) then Null else Text(Trimmed(host, profit))])
  }

  function StrategyOf(host: Host, kind: Kind, value: Json, ordinal: nat): Result<Option<Fields>> {
    if CarriesStrategy(kind) then
      match CompleteStrategy(host, value, ordinal)
      case Ok(s) => Ok(Some(s))
      case Err(p) => Err(p)
    else if value != Null && value != Object(map[]) then Err(ManagementHasStrategy(ordinal))
    else Ok(None)
  }

  function OptionalPositive(host: Host, value: Json, ordinal: nat): Result<Option<int>> {
    if Blank(value) then Ok(None)
    else
      match host.int_(value)
      case None => Err(TargetInvalid(ordinal))
      case Some(n) => if n <= 0 then Err(TargetInvalid(ordinal)) else Ok(Some(n))
  }

  function Cut(s: string): string { if |s| > 1000 then s[..1000] else s }

  function OptionalText(host: Host, value: Json): Option<string> {
    if Blank(value) then None
    else
      var c := Cut(Trimmed(host, value));
      if c == "" then None else Some(c)
  }

  function TargetField(own: Option<Json>, target: Json, key: string): Json {
    if own.Some? then own.value else if target.Object? then Get(target.fields, key) else Null
  }

  function NormalRow(host: Host, raw: Raw, ordinal: nat): Result<Instruction> {
    if raw == NotObject then Err(RowNotObject(ordinal))
    else
      var kind := KindOf(Lower(Strip(StrOr(host, if Truthy(raw.kind) then raw.kind else raw.action))));
      if kind == None then Err(KindInvalid(ordinal))
      else
        var confidence := host.float(raw.confidence);
        if confidence == None || !(0.0 <= confidence.value <= 1.0) then Err(ConfidenceInvalid(ordinal))
        else
          var strategy := StrategyOf(host, kind.value, raw.strategy, ordinal);
          var lifecycle := OptionalPositive(host, TargetField(raw.lifecycle, raw.target, "lifecycle_id"), ordinal);
          var thread := OptionalPositive(host, TargetField(raw.thread, raw.target, "thread_id"), ordinal);
          if strategy.Err? then Err(strategy.problem)
          else if lifecycle.Err? then Err(lifecycle.problem)
          else if thread.Err? then Err(thread.problem)
          else if raw.parameters != Null && !raw.parameters.Object? then Err(ParametersNotObject(ordinal))
          else Ok(Instruction(kind.value, confidence.value, OptionalText(host, raw.reason), strategy.value,
                              lifecycle.value, thread.value,
                              if raw.parameters.Object? then Some(raw.parameters.fields) else None))
  }

  /** Rows are normalised in order; the first bad one is the error. */
  function NormalRows(host: Host, raws: seq<Raw>): Result<seq<Instruction>> {
    if raws == [] then Ok([])
    else
      match NormalRows(host, raws[..|raws| - 1])
      case Err(p) => Err(p)
      case Ok(init) =>
        match NormalRow(host, raws[|raws| - 1], |raws| - 1)
        case Err(p) => Err(p)
        case Ok(i) => Ok(init + [i])
  }

  // ---------------------------------------------------------------- the whole message

  /** What makes two instructions the same: everything but confidence and reason. */
  datatype Identity = Identity(kind: Kind, strategy: Option<Fields>, lifecycle: Option<int>, thread: Option<int>,
    parameters: Option<Fields>)

  function IdentityOf(i: Instruction): Identity { Identity(i.kind, i.strategy, i.lifecycle, i.thread, i.parameters) }

  predicate Distinct(rows: seq<Instruction>) {
    forall i, j | 0 <= i < j < |rows| :: IdentityOf(rows[i]) != IdentityOf(rows[j])
  }

  /** Behind every instruction of its priority or a smaller one. */
  function Insert(sorted: seq<Instruction>, x: Instruction): seq<Instruction> {
    if sorted == [] then [x]
    else if Priority(sorted[|sorted| - 1].kind) <= Priority(x.kind) then sorted + [x]
    else Insert(sorted[..|sorted| - 1], x) + [sorted[|sorted| - 1]]
  }

  function Ordered(rows: seq<Instruction>): seq<Instruction> {
    if rows == [] then [] else Insert(Ordered(rows[..|rows| - 1]), rows[|rows| - 1])
  }

  function Normalize(host: Host, raws: seq<Raw>): Result<seq<Instruction>> {
    if |raws| > MOST then Err(CountExceeded)
    else
      match NormalRows(host, raws)
      case Err(p) => Err(p)
      case Ok(rows) => if Distinct(rows) then Ok(Ordered(rows)) else Err(Duplicate)
  }

  // ---------------------------------------------------------------- the loops

  method NormalizeRows(host: Host, raws: seq<Raw>) returns (r: Result<seq<Instruction>>)
    ensures r == NormalRows(host, raws)
  {
    var rows: seq<Instruction> := [];
    var n := 0;
    while n < |raws|
      invariant 0 <= n <= |raws|
      invariant NormalRows(host, raws[..n]) == Ok(rows)
    {
      assert raws[..n + 1][..n] == raws[..n];
      var one := NormalRow(host, raws[n], n);
      if one.Err? {
        FirstErrorStays(host, raws, n + 1, one.problem);
        return Err(one.problem);
      }
      rows := rows + [one.value];
      n := n + 1;
    }
    assert raws[..n] == raws;
    r := Ok(rows);
  }

  lemma {:induction false} FirstErrorStays(host: Host, raws: seq<Raw>, n: nat, p: Problem)
    requires n <= |raws| && NormalRows(host, raws[..n]) == Err(p)
    ensures NormalRows(host, raws) == Err(p)
    decreases |raws| - n
  {
    if n == |raws| {
      assert raws[..n] == raws;
    } else {
      assert raws[..n + 1][..n] == raws[..n];
      FirstErrorStays(host, raws, n + 1, p);
    }
  }

  method AllDistinct(rows: seq<Instruction>) returns (distinct: bool)
    ensures distinct == Distinct(rows)
  {
    var seen: set<Identity> := {};
    var n := 0;
    while n < |rows|
      invariant 0 <= n <= |rows|
      invariant Distinct(rows[..n])
      invariant forall id :: id in seen <==> exists k :: 0 <= k < n && IdentityOf(rows[k]) == id
    {
      var id := IdentityOf(rows[n]);
      if id in seen {
        return false;
      }
      seen := seen + {id};
      n := n + 1;
      assert IdentityOf(rows[n - 1]) == id;
    }
    assert rows[..n] == rows;
    return true;
  }

  method NormalizeInstructions(host: Host, raws: seq<Raw>) returns (r: Result<seq<Instruction>>)
    ensures r == Normalize(host, raws)
  {
    if |raws| > MOST {
      return Err(CountExceeded);
    }
    var normalized := NormalizeRows(host, raws);
    if normalized.Err? {
      return normalized;
    }
    var distinct := AllDistinct(normalized.value);
    if !distinct {
      return Err(Duplicate);
    }
    r := Ok(Ordered(normalized.value));
  }
}
