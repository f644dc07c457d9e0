/** Selecting the fragments adjacent to one entry strategy: a segment of facts bounded
    by hard boundaries, and the decision its fragments add up to. */
module AdjacentEntry {
  import opened Options
  import opened Texts

  // ---------------------------------------------------------------- source order

  /** Instants count from the earliest representable one, which also stands for a missing time. */
  datatype SourceKey = SourceKey(at: nat, message: int, raw: int)

  predicate Before(a: SourceKey, b: SourceKey) {
    a.at < b.at || (a.at == b.at && (a.message < b.message || (a.message == b.message && a.raw < b.raw)))
  }

  predicate AtMost(a: SourceKey, b: SourceKey) { a == b || Before(a, b) }

  function SourceOrderKey(postedAt: Option<nat>, message: int, raw: int): SourceKey {
    SourceKey(if postedAt.Some? then postedAt.value else 0, message, raw)
  }

  // ---------------------------------------------------------------- facts

  datatype Kind =
    | Fragment | Unresolved | OtherKind
    | CompleteEntry | CancelEntry | OppositeEntry | Replacement | ExpiredAdjacency

  predicate HardBoundary(k: Kind) {
    k.CompleteEntry? || k.CancelEntry? || k.OppositeEntry? || k.Replacement? || k.ExpiredAdjacency?
  }

  /** A payload value after decimal parsing: `None` when it is no finite number. */
  type Parsed = Option<real>

  /** `entry_price`, absent (or empty) or given. */
  datatype EntryPrice = NoPrice | Price(value: Parsed)

  datatype Payload =
    | RiskMultiplier(value: Parsed)
    | LegAllocation(values: Option<seq<Parsed>>)          // None: not a list
    | SupplementalEntry(entryPrice: EntryPrice, prices: Option<seq<Parsed>>)
    | OtherPayload

  datatype Fact = Fact(
    raw: int, message: int, postedAt: Option<nat>, kind: Kind,
    symbol: string, side: string, fragmentId: Option<int>, payload: Payload)

  datatype Strategy = Strategy(raw: int, message: int, postedAt: Option<nat>, symbol: string, side: string)

  function KeyOf(f: Fact): SourceKey { SourceOrderKey(f.postedAt, f.message, f.raw) }

  function StrategyKey(s: Strategy): SourceKey { SourceOrderKey(s.postedAt, s.message, s.raw) }

  predicate Matching(f: Fact, s: Strategy) {
    && f.kind == Fragment && f.fragmentId.Some?
    && Upper(Strip(f.symbol)) == Upper(Strip(s.symbol))
    && Lower(Strip(f.side)) == Lower(Strip(s.side))
  }

  // ---------------------------------------------------------------- lists

  function Filter(facts: seq<Fact>, p: Fact -> bool): (r: seq<Fact>)
    ensures forall f :: f in r <==> f in facts && p(f)
  {
    if facts == [] then []
    else if p(facts[0]) then [facts[0]] + Filter(facts[1..], p)
    else Filter(facts[1..], p)
  }

  /** The stable sort by source key. */
  function Sort(facts: seq<Fact>): seq<Fact> {
    if facts == [] then [] else Insert(facts[0], Sort(facts[1..]))
  }

  function Insert(f: Fact, sorted: seq<Fact>): seq<Fact> {
    if sorted == [] || AtMost(KeyOf(f), KeyOf(sorted[0])) then [f] + sorted
    else [sorted[0]] + Insert(f, sorted[1..])
  }

  predicate Sorted(facts: seq<Fact>) {
    forall i, j | 0 <= i < j < |facts| :: AtMost(KeyOf(facts[i]), KeyOf(facts[j]))
  }

  function Latest(facts: seq<Fact>): (k: SourceKey)
    requires facts != []
    ensures exists f :: f in facts && KeyOf(f) == k
    ensures forall f | f in facts :: AtMost(KeyOf(f), k)
  {
    if |facts| == 1 then (assert facts[0] in facts; KeyOf(facts[0]))
    else
      var rest := Latest(facts[1..]);
      if Before(rest, KeyOf(facts[0])) then KeyOf(facts[0]) else rest
  }

  function Earliest(facts: seq<Fact>): (k: SourceKey)
    requires facts != []
    ensures exists f :: f in facts && KeyOf(f) == k
    ensures forall f | f in facts :: AtMost(k, KeyOf(f))
  {
    if |facts| == 1 then (assert facts[0] in facts; KeyOf(facts[0]))
    else
      var rest := Earliest(facts[1..]);
      if Before(KeyOf(facts[0]), rest) then KeyOf(facts[0]) else rest
  }

  function Raws(facts: seq<Fact>): seq<int> {
    if facts == [] then [] else [facts[0].raw] + Raws(facts[1..])
  }

  // ---------------------------------------------------------------- the bounded segment

  function UpTo(k: SourceKey): Fact -> bool { (f: Fact) => AtMost(KeyOf(f), k) }

  function EarlierThan(k: SourceKey): Fact -> bool { (f: Fact) => Before(KeyOf(f), k) }

  function LaterThan(k: SourceKey): Fact -> bool { (f: Fact) => Before(k, KeyOf(f)) }

  function KeyIs(k: SourceKey): Fact -> bool { (f: Fact) => KeyOf(f) == k }

  function IsHard(): Fact -> bool { (f: Fact) => HardBoundary(f.kind) }

  function BoundedBefore(before: seq<Fact>, boundaries: seq<Fact>): seq<Fact> {
    if boundaries == [] then before else Filter(before, LaterThan(Latest(boundaries)))
  }

  function BoundedAfter(after: seq<Fact>, boundaries: seq<Fact>): seq<Fact> {
    if boundaries == [] then after else Filter(after, EarlierThan(Earliest(boundaries)))
  }

  /** The facts between the nearest hard boundaries, and the boundaries met. */
  function BoundedSegment(strategy: Strategy, facts: seq<Fact>, cutoff: SourceKey): (seq<Fact>, seq<int>) {
    var here := StrategyKey(strategy);
    var eligible := Sort(Filter(facts, UpTo(cutoff)));
    var before, after := Filter(eligible, EarlierThan(here)), Filter(eligible, LaterThan(here));
    var lefts, rights := Filter(before, IsHard()), Filter(after, IsHard());
    var nearestRights := if rights == [] then [] else Filter(rights, KeyIs(Earliest(rights)));
    (BoundedBefore(before, lefts) + BoundedAfter(after, rights), Raws(lefts) + Raws(nearestRights))
  }

  /** A hard boundary, no later than the cutoff, at this fact or between it and the strategy. */
  predicate Shielded(strategy: Strategy, facts: seq<Fact>, cutoff: SourceKey, key: SourceKey) {
    var here := StrategyKey(strategy);
    exists b :: b in facts && HardBoundary(b.kind) && AtMost(KeyOf(b), cutoff) &&
      ((AtMost(key, KeyOf(b)) && Before(KeyOf(b), here)) || (Before(here, KeyOf(b)) && AtMost(KeyOf(b), key)))
  }

  /** What the segment is, said of one fact at a time. */
  predicate InSegment(strategy: Strategy, facts: seq<Fact>, cutoff: SourceKey, f: Fact) {
    && AtMost(KeyOf(f), cutoff)
    && KeyOf(f) != StrategyKey(strategy)
    && !Shielded(strategy, facts, cutoff, KeyOf(f))
  }

  // ---------------------------------------------------------------- the decision

  datatype Status = Ready | Pending | Blocked

  datatype Decision = Decision(
    status: Status, reason: string, fragmentIds: seq<int>, multiplier: real, allocations: seq<real>,
    prices: seq<real>, boundaryEvidence: seq<int>, pendingRaws: seq<int>, legacyPreambleIds: seq<int>)

  function BlockedDecision(reason: string, evidence: seq<int>): Decision {
    Decision(Blocked, reason, [], 1.0, [], [], evidence, [], [])
  }

  predicate Positive(values: seq<Parsed>) {
    forall i | 0 <= i < |values| :: values[i].Some? && values[i].value > 0.0
  }

  function Values(values: seq<Parsed>): seq<real> {
    if values == [] then []
    else if values[0].Some? then [values[0].value] + Values(values[1..])
    else Values(values[1..])
  }

  function Sum(values: seq<real>): real {
    if values == [] then 0.0 else values[0] + Sum(values[1..])
  }

  predicate ValidAllocation(values: seq<Parsed>) { Positive(values) && Sum(Values(values)) == 1.0 }

  function OfferedPrices(p: Payload): seq<Parsed>
    requires p.SupplementalEntry?
  {
    if p.entryPrice.Price? then [p.entryPrice.value] else if p.prices.Some? then p.prices.value else []
  }

  /** Prices join in order, once each, when they are positive numbers. */
  function JoinPrices(prices: seq<real>, offered: seq<Parsed>): seq<real>
    decreases |offered|
  {
    if offered == [] then prices
    else
      var v := offered[0];
      JoinPrices(if v.Some? && v.value > 0.0 && v.value !in prices then prices + [v.value] else prices, offered[1..])
  }

  /** The accumulators of the scan over the selected fragments, or the reason it stopped. */
  datatype Scan = Stopped(reason: string) | Scanned(multipliers: seq<real>, allocations: seq<real>, prices: seq<real>)

  function ScanOne(acc: Scan, p: Payload): Scan
    requires acc.Scanned?
  {
    match p
    case RiskMultiplier(v) =>
      if v == None || v.value <= 0.0 || v.value > 1.0 then Stopped("entry_risk_multiplier_invalid")
      else acc.(multipliers := acc.multipliers + [v.value])
    case LegAllocation(values) =>
      if values == None then acc
      else if !ValidAllocation(values.value) then Stopped("entry_leg_allocation_invalid")
      else if acc.allocations != [] && acc.allocations != Values(values.value)
        then Stopped("entry_leg_allocation_conflict")
      else acc.(allocations := Values(values.value))
    case SupplementalEntry(_, _) => acc.(prices := JoinPrices(acc.prices, OfferedPrices(p)))
    case OtherPayload => acc
  }

  function ScanAll(acc: Scan, selected: seq<Fact>): Scan
    decreases |selected|
  {
    if acc.Stopped? || selected == [] then acc else ScanAll(ScanOne(acc, selected[0].payload), selected[1..])
  }

  const START := Scanned([], [], [])

  function Ids(selected: seq<Fact>, negative: bool): seq<int> {
    if selected == [] then []
    else
      var id := selected[0].fragmentId;
      if id.Some? && !negative && id.value > 0 then [id.value] + Ids(selected[1..], negative)
      else if id.Some? && negative && id.value < 0 then [-id.value] + Ids(selected[1..], negative)
      else Ids(selected[1..], negative)
  }

  predicate AllEqual(values: seq<real>) {
    forall i | 0 <= i < |values| :: values[i] == values[0]
  }

  const MAX_SUPPLEMENTAL_ENTRY_PRICES := 3

  function Conclude(scan: Scan, selected: seq<Fact>, evidence: seq<int>): Decision {
    match scan
    case Stopped(reason) => BlockedDecision(reason, evidence)
    case Scanned(multipliers, allocations, prices) =>
      var ids, legacy := Ids(selected, false), Ids(selected, true);
      if |prices| > MAX_SUPPLEMENTAL_ENTRY_PRICES then
        Decision(Blocked, "entry_leg_count_exceeded", ids, 1.0, allocations, [], evidence, [], legacy)
      else if !AllEqual(multipliers) then
        Decision(Blocked, "entry_risk_multiplier_conflict", ids, 1.0, allocations, prices, evidence, [], legacy)
      else
        Decision(Ready, "", ids, if multipliers == [] then 1.0 else multipliers[0], allocations, prices, evidence, [],
          legacy)
  }

  function Selected(segment: seq<Fact>, strategy: Strategy): seq<Fact> {
    Filter(segment, (f: Fact) => Matching(f, strategy))
  }

  function PendingOf(segment: seq<Fact>): seq<Fact> {
    Filter(segment, (f: Fact) => f.kind == Unresolved)
  }

  function Decide(strategy: Strategy, segment: seq<Fact>, evidence: seq<int>): Decision {
    var pending := PendingOf(segment);
    if pending != [] then
      Decision(Pending, "adjacent_entry_context_pending", [], 1.0, [], [], evidence, Raws(pending), [])
    else
      var selected := Selected(segment, strategy);
      Conclude(ScanAll(START, selected), selected, evidence)
  }

  function SelectFragments(strategy: Strategy, facts: seq<Fact>, cutoff: SourceKey): Decision {
    var (segment, evidence) := BoundedSegment(strategy, facts, cutoff);
    Decide(strategy, segment, evidence)
  }

  // ---------------------------------------------------------------- the scanning loop

  method JoinOffered(prices: seq<real>, offered: seq<Parsed>) returns (joined: seq<real>)
    ensures joined == JoinPrices(prices, offered)
  {
    joined := prices;
    var i := 0;
    while i < |offered|
      invariant 0 <= i <= |offered|
      invariant JoinPrices(joined, offered[i..]) == JoinPrices(prices, offered)
    {
      var v := offered[i];
      assert offered[i..][1..] == offered[i + 1..];
      if v.Some? && v.value > 0.0 && v.value !in joined {
        joined := joined + [v.value];
      }
      i := i + 1;
    }
  }

  method AllEqualTo(values: seq<real>) returns (same: bool)
    ensures same == AllEqual(values)
  {
    var i := 1;
    while i < |values|
      invariant 1 <= i && (i <= |values| || |values| == 0)
      invariant forall k | 0 <= k < i && k < |values| :: values[k] == values[0]
    {
      if values[i] != values[0] {
        return false;
      }
      i := i + 1;
    }
    same := true;
  }

  /** The loop over the selected fragments, with its three accumulators. */
  method ScanSelected(selected: seq<Fact>) returns (scan: Scan)
    ensures scan == ScanAll(START, selected)
  {
    var multipliers: seq<real>, allocations: seq<real>, prices: seq<real> := [], [], [];
    var i := 0;
    while i < |selected|
      invariant 0 <= i <= |selected|
      invariant ScanAll(Scanned(multipliers, allocations, prices), selected[i..]) == ScanAll(START, selected)
    {
      assert selected[i..][0] == selected[i] && selected[i..][1..] == selected[i + 1..];
      match selected[i].payload {
        case RiskMultiplier(v) =>
          if v == None || v.value <= 0.0 || v.value > 1.0 {
            return Stopped("entry_risk_multiplier_invalid");
          }
          multipliers := multipliers + [v.value];
        case LegAllocation(values) =>
          if values.Some? {
            if !ValidAllocation(values.value) {
              return Stopped("entry_leg_allocation_invalid");
            }
            if allocations != [] && allocations != Values(values.value) {
              return Stopped("entry_leg_allocation_conflict");
            }
            allocations := Values(values.value);
          }
        case SupplementalEntry(entryPrice, offered) =>
          prices := JoinOffered(prices, OfferedPrices(selected[i].payload));
        case OtherPayload =>
      }
      i := i + 1;
    }
    scan := Scanned(multipliers, allocations, prices);
  }

  /** The whole selection. */
  method SelectAdjacentEntryFragments(strategy: Strategy, facts: seq<Fact>, cutoff: SourceKey) returns (d: Decision)
    ensures d == SelectFragments(strategy, facts, cutoff)
  {
    var (segment, evidence) := BoundedSegment(strategy, facts, cutoff);
    var pending := PendingOf(segment);
    if pending != [] {
      return Decision(Pending, "adjacent_entry_context_pending", [], 1.0, [], [], evidence, Raws(pending), []);
    }
    var selected := Selected(segment, strategy);
    var scan := ScanSelected(selected);
    if scan.Stopped? {
      return BlockedDecision(scan.reason, evidence);
    }
    var ids, legacy := Ids(selected, false), Ids(selected, true);
    if |scan.prices| > MAX_SUPPLEMENTAL_ENTRY_PRICES {
      return Decision(Blocked, "entry_leg_count_exceeded", ids, 1.0, scan.allocations, [], evidence, [], legacy);
    }
    var same := AllEqualTo(scan.multipliers);
    if !same {
      return Decision(Blocked, "entry_risk_multiplier_conflict", ids, 1.0, scan.allocations, scan.prices, evidence, [],
        legacy);
    }
    d := Decision(Ready, "", ids, if scan.multipliers == [] then 1.0 else scan.multipliers[0],
                  scan.allocations, scan.prices, evidence, [], legacy);
  }
}
