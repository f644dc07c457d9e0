/** Planning strategy-wide break-even work: freeze the targets of one proven trigger once, and let every
    later or slower planner adopt what was frozen. */
module BreakEven {
  import opened Options
  import opened Texts

  datatype Problem =
    | TriggerTypeInvalid | IdentityInvalid | ModeInvalid | ConfirmationMissing | ConfirmationInvalid
    | BindingNotUnique | LifecycleNotUnique | LiveLegMissing | ObservationIncomplete | ObservationTooOld
    | ReplayConflict | ReservationConflict

  datatype Result<+T> = Ok(value: T) | Err(problem: Problem)

  datatype Confirmation = Missing | Invalid | At(time: int)

  /** Canonical text of the evidence, with the confirmation time it carries. */
  datatype Evidence = Evidence(text: string, confirmed: Confirmation)

  datatype Request = Request(trigger: string, identity: string, evidence: Evidence, strategy: string, plannedAt: int,
    mode: string)

  datatype Leg = Leg(id: int, venue: string, pos: string, status: string, attribution: string, order: string,
    clientOrder: string)

  datatype Observation = Observation(
    id: int, leg: int, pos: string, size: string, average: string, complete: bool, at: int, fingerprint: string,
      pendingTpsl: string)

  /** What the other tables hold when a planner reads them. */
  datatype World = World(
    bindings: string -> seq<int>, lifecycles: int -> seq<int>, entryLegs: int -> seq<Leg>,
    observations: seq<Observation>)

  datatype Target = Target(leg: int, pos: string, size: string, average: string, observation: int, fingerprint: string)

  datatype Deferred = Deferred(leg: int, order: string, clientOrder: string, status: string)

  datatype Snapshot = Snapshot(strategy: string, binding: int, lifecycle: int, live: seq<Target>,
    deferred: seq<Deferred>, plannedAt: int)

  datatype LegRow = LegRow(leg: int, pos: string, size: string, average: string, oldProtection: string)

  datatype Key = Key(strategy: string, trigger: string, identity: string)

  /** What a convergence row never changes, and its progress. */
  datatype Frozen = Frozen(key: Key, evidence: Evidence, mode: string, snapshot: Snapshot, legs: seq<LegRow>)

  datatype Row = Row(frozen: Frozen, status: string)

  // ---------------------------------------------------------------- the request

  function Checked(r: Request): Result<Request> {
    var q := Request(Strip(r.trigger), Strip(r.identity), r.evidence, Strip(r.strategy), r.plannedAt,
      Lower(Strip(r.mode)));
    if q.trigger != "tp1_fill" && q.trigger != "confirmed_partial_close" then Err(TriggerTypeInvalid)
    else if q.identity == "" || q.strategy == "" then Err(IdentityInvalid)
    else if q.mode != "disabled" && q.mode != "shadow" && q.mode != "live" then Err(ModeInvalid)
    else if q.evidence.confirmed == Missing then Err(ConfirmationMissing)
    else if q.evidence.confirmed == Invalid then Err(ConfirmationInvalid)
    else Ok(q)
  }

  function KeyOf(q: Request): Key { Key(q.strategy, q.trigger, q.identity) }

  // ---------------------------------------------------------------- freezing the targets

  predicate Live(l: Leg) {
    (Lower(l.status) == "active" || Lower(l.status) == "partially_filled") && Lower(l.attribution) == "verified" &&
      Strip(l.pos) != ""
  }

  predicate Waiting(l: Leg) {
    && Strip(l.pos) == ""
    && (Lower(l.status) == "pending" || Lower(l.status) == "open" || Lower(l.status) == "submitted"
        || Lower(l.status) == "partially_filled" || Lower(l.status) == "partial")
  }

  function IsLive(): Leg -> bool { (l: Leg) => Live(l) }

  function IsWaiting(): Leg -> bool { (l: Leg) => Waiting(l) }

  function Picked(legs: seq<Leg>, p: Leg -> bool): seq<Leg> {
    if legs == [] then [] else if p(legs[0]) then [legs[0]] + Picked(legs[1..], p) else Picked(legs[1..], p)
  }

  function LiveLegs(legs: seq<Leg>): seq<Leg> { Picked(legs, IsLive()) }

  function DeferredLegs(legs: seq<Leg>): (r: seq<Deferred>)
    ensures var waiting := Picked(legs, IsWaiting());
      |r| == |waiting| && forall i | 0 <= i < |r| ::
        r[i] == Deferred(waiting[i].id, waiting[i].order, waiting[i].clientOrder, waiting[i].status)
  {
    var waiting := Picked(legs, IsWaiting());
    seq(|waiting|, i requires 0 <= i < |waiting| =>
      Deferred(waiting[i].id, waiting[i].order, waiting[i].clientOrder, waiting[i].status))
  }

  /** Newer by observation time, then by id. */
  predicate NotNewer(a: Observation, b: Observation) { a.at < b.at || (a.at == b.at && a.id <= b.id) }

  /** The newest observation of one leg at one position. */
  function Latest(observations: seq<Observation>, leg: int, pos: string): (r: Option<Observation>)
    ensures r == None <==>
      forall i | 0 <= i < |observations| :: !(observations[i].leg == leg && observations[i].pos == pos)
    ensures r.Some? ==> r.value in observations && r.value.leg == leg && r.value.pos == pos
    ensures r.Some? ==> forall o | o in observations && o.leg == leg && o.pos == pos :: NotNewer(o, r.value)
  {
    if observations == [] then None
    else
      var rest := Latest(observations[1..], leg, pos);
      var first := observations[0];
      if first.leg == leg && first.pos == pos && (rest == None || NotNewer(rest.value, first)) then Some(first)
        else rest
  }

  type Freeze = (seq<Target>, seq<LegRow>)

  function Observed(w: World, l: Leg, since: int): Result<Observation> {
    match Latest(w.observations, l.id, l.pos)
    case None => Err(ObservationIncomplete)
    case Some(o) =>
      if !o.complete || o.average == "" then Err(ObservationIncomplete)
      else if o.at < since then Err(ObservationTooOld)
      else Ok(o)
  }

  function FreezeLegs(w: World, legs: seq<Leg>, since: int): Result<Freeze> {
    if legs == [] then Ok(([], []))
    else
      var init := FreezeLegs(w, legs[..|legs| - 1], since);
      if init.Err? then init
      else
        var l := legs[|legs| - 1];
        match Observed(w, l, since)
        case Err(p) => Err(p)
        case Ok(o) =>
          Ok((init.value.0 + [Target(l.id, o.pos, o.size, o.average, o.id, o.fingerprint)],
              init.value.1 + [LegRow(l.id, o.pos, o.size, o.average, o.pendingTpsl)]))
  }

  /** The row a planner would insert, from what it has read. */
  function Draft(w: World, q: Request): Result<Frozen>
    requires q.evidence.confirmed.At?
  {
    var bindings := w.bindings(q.strategy);
    if |bindings| != 1 then Err(BindingNotUnique)
    else
      var lifecycles := w.lifecycles(bindings[0]);
      if |lifecycles| != 1 then Err(LifecycleNotUnique)
      else
        var legs := w.entryLegs(bindings[0]);
        if LiveLegs(legs) == [] then Err(LiveLegMissing)
        else
          match FreezeLegs(w, LiveLegs(legs), q.evidence.confirmed.time)
          case Err(p) => Err(p)
          case Ok(f) =>
            Ok(Frozen(KeyOf(q), q.evidence, q.mode,
                      Snapshot(q.strategy, bindings[0], lifecycles[0], f.0, DeferredLegs(legs), q.plannedAt),
                      if q.mode == "disabled" then [] else f.1))
  }

  // ---------------------------------------------------------------- the table

  function Find(rows: seq<Row>, key: Key): (r: Option<nat>)
    ensures r.Some? ==> r.value < |rows| && rows[r.value].frozen.key == key
    ensures r == None <==> forall i | 0 <= i < |rows| :: rows[i].frozen.key != key
  {
    if rows == [] then None
    else if rows[|rows| - 1].frozen.key == key then Some(|rows| - 1)
    else Find(rows[..|rows| - 1], key)
  }

  /** What a planner gets when its trigger is already planned. */
  function Adopt(row: Row, evidence: Evidence, mode: string): Result<Row> {
    if row.frozen.evidence != evidence || row.frozen.mode != mode then Err(ReplayConflict) else Ok(row)
  }

  predicate DistinctPositions(legs: seq<LegRow>) {
    forall i, j | 0 <= i < j < |legs| :: legs[i].pos != legs[j].pos
  }

  function FirstStatus(mode: string): string { if mode == "disabled" then "blocked" else "planned" }

  datatype Opened = Answered(reply: Result<Row>) | Drafted(draft: Frozen)

  /** Up to the insert: the first read, and if it finds nothing the targets to freeze. */
  function Open(rows: seq<Row>, w: World, r: Request): Opened {
    match Checked(r)
    case Err(p) => Answered(Err(p))
    case Ok(q) =>
      match Find(rows, KeyOf(q))
      case Some(i) => Answered(Adopt(rows[i], q.evidence, q.mode))
      case None =>
        match Draft(w, q)
        case Err(p) => Answered(Err(p))
        case Ok(d) => Drafted(d)
  }

  /** The insert with its legs: refused as a whole by either unique index, and then adopted or given up. */
  function Commit(rows: seq<Row>, d: Frozen): (seq<Row>, Result<Row>) {
    var row := Row(d, FirstStatus(d.mode));
    match Find(rows, d.key)
    case Some(i) => (rows, Adopt(rows[i], d.evidence, d.mode))
    case None => if DistinctPositions(d.legs) then (rows + [row], Ok(row)) else (rows, Err(ReservationConflict))
  }

  // ---------------------------------------------------------------- the planner as the program runs it

  method FreezeTargets(w: World, legs: seq<Leg>, since: int) returns (r: Result<Freeze>)
    ensures r == FreezeLegs(w, legs, since)
  {
    var targets: seq<Target>, rows: seq<LegRow> := [], [];
    var n := 0;
    while n < |legs|
      invariant 0 <= n <= |legs|
      invariant FreezeLegs(w, legs[..n], since) == Ok((targets, rows))
    {
      assert legs[..n + 1][..n] == legs[..n];
      var o := Latest(w.observations, legs[n].id, legs[n].pos);
      var problem := None;
      if o == None || !o.value.complete || o.value.average == "" {
        problem := Some(ObservationIncomplete);
      } else if o.value.at < since {
        problem := Some(ObservationTooOld);
      }
      if problem.Some? {
        FailureStays(w, legs, since, n + 1, problem.value);
        return Err(problem.value);
      }
      targets := targets + [Target(legs[n].id, o.value.pos, o.value.size, o.value.average, o.value.id,
        o.value.fingerprint)];
      rows := rows + [LegRow(legs[n].id, o.value.pos, o.value.size, o.value.average, o.value.pendingTpsl)];
      n := n + 1;
    }
    assert legs[..n] == legs;
    r := Ok((targets, rows));
  }

  lemma {:induction false} FailureStays(w: World, legs: seq<Leg>, since: int, n: nat, p: Problem)
    requires n <= |legs| && FreezeLegs(w, legs[..n], since) == Err(p)
    ensures FreezeLegs(w, legs, since) == Err(p)
    decreases |legs| - n
  {
    if n == |legs| {
      assert legs[..n] == legs;
    } else {
      assert legs[..n + 1][..n] == legs[..n];
      FailureStays(w, legs, since, n + 1, p);
    }
  }

  class ConvergenceTable {
    var rows: seq<Row>

    /** `meanwhile` are the rows other planners commit between this one's first read and its insert. */
    method PlanOrAdopt(r: Request, w: World, meanwhile: seq<Row>) returns (reply: Result<Row>)
      modifies this
      ensures var first := Open(old(rows), w, r);
        match first
        case Answered(a) => reply == a && rows == old(rows)
        case Drafted(d) => (rows, reply) == Commit(old(rows) + meanwhile, d)
    {
      var checked := Checked(r);
      if checked.Err? {
        return Err(checked.problem);
      }
      var q := checked.value;
      var existing := Find(rows, KeyOf(q));
      if existing.Some? {
        var row := rows[existing.value];
        if row.frozen.evidence != q.evidence || row.frozen.mode != q.mode {
          return Err(ReplayConflict);
        }
        return Ok(row);
      }
      var bindings := w.bindings(q.strategy);
      if |bindings| != 1 {
        return Err(BindingNotUnique);
      }
      var lifecycles := w.lifecycles(bindings[0]);
      if |lifecycles| != 1 {
        return Err(LifecycleNotUnique);
      }
      var legs := w.entryLegs(bindings[0]);
      if LiveLegs(legs) == [] {
        return Err(LiveLegMissing);
      }
      var frozen := FreezeTargets(w, LiveLegs(legs), q.evidence.confirmed.time);
      if frozen.Err? {
        return Err(frozen.problem);
      }
      var snapshot := Snapshot(q.strategy, bindings[0], lifecycles[0], frozen.value.0, DeferredLegs(legs), q.plannedAt);
      var d := Frozen(KeyOf(q), q.evidence, q.mode, snapshot, if q.mode == "disabled" then [] else frozen.value.1);
      rows := rows + meanwhile;
      existing := Find(rows, d.key);
      if existing == None && DistinctPositions(d.legs) {
        var row := Row(d, if q.mode == "disabled" then "blocked" else "planned");
        rows := rows + [row];
        return Ok(row);
      }
      if existing == None {
        return Err(ReservationConflict);
      }
      var row := rows[existing.value];
      if row.frozen.evidence != q.evidence || row.frozen.mode != q.mode {
        return Err(ReplayConflict);
      }
      return Ok(row);
    }
  }

  // ---------------------------------------------------------------- what is frozen

  lemma {:induction false} PickedHas(legs: seq<Leg>, p: Leg -> bool, l: Leg)
    ensures l in Picked(legs, p) <==> l in legs && p(l)
  {
    if legs != [] {
      assert legs == [legs[0]] + legs[1..];
      PickedHas(legs[1..], p, l);
    }
  }

  lemma {:induction false} PickedConcat(a: seq<Leg>, b: seq<Leg>, p: Leg -> bool)
    ensures Picked(a + b, p) == Picked(a, p) + Picked(b, p)
  {
    if a == [] {
      assert a + b == b;
    } else {
      assert (a + b)[0] == a[0] && (a + b)[1..] == a[1..] + b;
      PickedConcat(a[1..], b, p);
    }
  }

  lemma PickedAround(before: seq<Leg>, l: Leg, after: seq<Leg>, p: Leg -> bool)
    ensures Picked(before + ([l] + after), p) == Picked(before, p) + (if p(l) then [l] else []) + Picked(after, p)
  {
    PickedConcat(before, [l] + after, p);
    assert ([l] + after)[1..] == after;
  }

  /** Cut at a leg, it is picked or passed over in its own place: what is picked before it and after it stays
      on its side. */
  predicate CutAt(legs: seq<Leg>, picked: seq<Leg>, p: Leg -> bool, k: nat)
    requires k < |legs|
  {
    picked == Picked(legs[..k], p) + (if p(legs[k]) then [legs[k]] else []) + Picked(legs[k + 1..], p)
  }

  predicate InPlace(legs: seq<Leg>, picked: seq<Leg>, p: Leg -> bool) {
    forall k | 0 <= k < |legs| :: CutAt(legs, picked, p, k)
  }

  lemma PickedAt(legs: seq<Leg>, p: Leg -> bool, k: nat)
    requires k < |legs|
    ensures CutAt(legs, Picked(legs, p), p, k)
  {
    var before, l, after := Around(legs, k);
    PickedAround(before, l, after, p);
  }

  lemma Around(legs: seq<Leg>, k: nat) returns (before: seq<Leg>, l: Leg, after: seq<Leg>)
    requires k < |legs|
    ensures legs == before + ([l] + after) && before == legs[..k] && l == legs[k] && after == legs[k + 1..]
  {
    before, l, after := legs[..k], legs[k], legs[k + 1..];
  }

  /** The picked legs keep their order. */
  lemma PickedInPlace(legs: seq<Leg>, p: Leg -> bool)
    ensures InPlace(legs, Picked(legs, p), p)
  {
    forall k | 0 <= k < |legs| ensures CutAt(legs, Picked(legs, p), p, k) { PickedAt(legs, p, k); }
  }

  /** Active or partly filled, with a proved attribution and a position that is named. */
  ghost predicate MayMove(l: Leg) {
    && Lower(l.status) in {"active", "partially_filled"} && Lower(l.attribution) == "verified"
    && exists k :: 0 <= k < |l.pos| && !IsSpace(l.pos[k])
  }

  /** Still to be filled, with no position yet. */
  ghost predicate YetToFill(l: Leg) {
    && Lower(l.status) in {"pending", "open", "submitted", "partially_filled", "partial"}
    && forall k | 0 <= k < |l.pos| :: IsSpace(l.pos[k])
  }

  lemma LegsAreSorted(l: Leg)
    ensures Live(l) <==> MayMove(l)
    ensures Waiting(l) <==> YetToFill(l)
  {
    StripIsEmptyIff(l.pos);
  }

  /** The newest observation: of the leg, at its position, the latest, and of those the one stored last. */
  lemma LatestIs(observations: seq<Observation>, l: Leg, o: Observation)
    requires o in observations && o.leg == l.id && o.pos == l.pos
    ensures Latest(observations, l.id, l.pos).Some?
    ensures var newest := Latest(observations, l.id, l.pos).value;
      && newest in observations && newest.leg == l.id && newest.pos == l.pos
      && (o.at < newest.at || (o.at == newest.at && o.id <= newest.id))
  {
    var i :| 0 <= i < |observations| && observations[i] == o;
    assert NotNewer(o, Latest(observations, l.id, l.pos).value);
  }

  /** What a request must be, which of its faults is reported, and what is left of it. */
  lemma CheckedIs(r: Request)
    ensures var trigger, mode := Strip(r.trigger), Lower(Strip(r.mode));
      if trigger !in {"tp1_fill", "confirmed_partial_close"} then Checked(r) == Err(TriggerTypeInvalid)
      else if Strip(r.identity) == "" || Strip(r.strategy) == "" then Checked(r) == Err(IdentityInvalid)
      else if mode !in {"disabled", "shadow", "live"} then Checked(r) == Err(ModeInvalid)
      else if r.evidence.confirmed.At? then
        Checked(r) == Ok(Request(trigger, Strip(r.identity), r.evidence, Strip(r.strategy), r.plannedAt, mode))
      else Checked(r) == Err(if r.evidence.confirmed.Missing? then ConfirmationMissing else ConfirmationInvalid)
  {
  }

  /** A leg whose newest observation is complete, priced and no older than the trigger. */
  predicate Proven(w: World, l: Leg, since: int) {
    var o := Latest(w.observations, l.id, l.pos);
    o.Some? && o.value.complete && o.value.average != "" && o.value.at >= since
  }

  /** What is frozen of one leg: every field is its newest observation's. */
  predicate FreezesAs(w: World, l: Leg, target: Target, row: LegRow) {
    var o := Latest(w.observations, l.id, l.pos);
    && o.Some?
    && target == Target(l.id, l.pos, o.value.size, o.value.average, o.value.id, o.value.fingerprint)
    && row == LegRow(l.id, l.pos, o.value.size, o.value.average, o.value.pendingTpsl)
  }

  lemma {:induction false} FreezeIff(w: World, legs: seq<Leg>, since: int)
    ensures FreezeLegs(w, legs, since).Ok? <==> forall i | 0 <= i < |legs| :: Proven(w, legs[i], since)
    ensures FreezeLegs(w, legs, since).Ok? ==>
      (var f := FreezeLegs(w, legs, since).value;
       |f.0| == |f.1| == |legs| && forall i | 0 <= i < |legs| :: FreezesAs(w, legs[i], f.0[i], f.1[i]))
  {
    if legs != [] {
      FreezeIff(w, legs[..|legs| - 1], since);
      assert forall i | 0 <= i < |legs| - 1 :: legs[..|legs| - 1][i] == legs[i];
    }
  }

  /** A draft succeeds exactly when the binding and its lifecycle are unique, a leg is live, and every live
      leg is proven since the trigger. */
  lemma DraftsIff(w: World, q: Request)
    requires q.evidence.confirmed.At?
    ensures Draft(w, q).Ok? <==>
      && |w.bindings(q.strategy)| == 1 && |w.lifecycles(w.bindings(q.strategy)[0])| == 1
      && (exists l :: l in w.entryLegs(w.bindings(q.strategy)[0]) && MayMove(l))
      && forall l | l in w.entryLegs(w.bindings(q.strategy)[0]) && MayMove(l) ::
           Proven(w, l, q.evidence.confirmed.time)
  {
    forall l ensures Live(l) <==> MayMove(l) { LegsAreSorted(l); }
    if |w.bindings(q.strategy)| == 1 {
      var legs := w.entryLegs(w.bindings(q.strategy)[0]);
      FreezeIff(w, LiveLegs(legs), q.evidence.confirmed.time);
      forall l ensures l in LiveLegs(legs) <==> l in legs && Live(l) { PickedHas(legs, IsLive(), l); }
      if l :| l in legs && Live(l) { assert l in LiveLegs(legs); }
      if LiveLegs(legs) != [] { assert LiveLegs(legs)[0] in LiveLegs(legs); }
      if forall l | l in legs && Live(l) :: Proven(w, l, q.evidence.confirmed.time) {
        forall i | 0 <= i < |LiveLegs(legs)| ensures Proven(w, LiveLegs(legs)[i], q.evidence.confirmed.time) {
          assert LiveLegs(legs)[i] in LiveLegs(legs);
        }
      }
    }
  }

  /** Why a draft fails, the first fault in the order of the checks; of the live legs the first unproven one
      decides, by whether its newest observation is unfinished or too old. */
  lemma DraftFailsWith(w: World, q: Request)
    requires q.evidence.confirmed.At? && Draft(w, q).Err?
    ensures var bindings, problem := w.bindings(q.strategy), Draft(w, q).problem;
      if |bindings| != 1 then problem == BindingNotUnique
      else if |w.lifecycles(bindings[0])| != 1 then problem == LifecycleNotUnique
      else if forall l | l in w.entryLegs(bindings[0]) :: !MayMove(l) then problem == LiveLegMissing
      else FirstUnproven(w, LiveLegs(w.entryLegs(bindings[0])), q.evidence.confirmed.time, problem)
  {
    if |w.bindings(q.strategy)| == 1 && |w.lifecycles(w.bindings(q.strategy)[0])| == 1 {
      var legs := w.entryLegs(w.bindings(q.strategy)[0]);
      forall l ensures l in LiveLegs(legs) <==> l in legs && MayMove(l) {
        PickedHas(legs, IsLive(), l);
        LegsAreSorted(l);
      }
      if LiveLegs(legs) != [] {
        assert LiveLegs(legs)[0] in LiveLegs(legs);
        FreezeFailsWith(w, LiveLegs(legs), q.evidence.confirmed.time);
      } else {
        assert forall l | l in legs :: MayMove(l) ==> l in LiveLegs(legs);
      }
    }
  }

  /** The first of the legs that is not proven, and why it is not. */
  ghost predicate FirstUnproven(w: World, legs: seq<Leg>, since: int, problem: Problem) {
    exists i :: 0 <= i < |legs| && UnprovenAt(w, legs, since, problem, i)
  }

  predicate UnprovenAt(w: World, legs: seq<Leg>, since: int, problem: Problem, i: nat)
    requires i < |legs|
  {
    var o := Latest(w.observations, legs[i].id, legs[i].pos);
    && !Proven(w, legs[i], since) && (forall k | 0 <= k < i :: Proven(w, legs[k], since))
    && problem == if o.Some? && o.value.complete && o.value.average != "" then ObservationTooOld
                  else ObservationIncomplete
  }

  lemma {:induction false} FreezeFailsWith(w: World, legs: seq<Leg>, since: int)
    requires FreezeLegs(w, legs, since).Err?
    ensures FirstUnproven(w, legs, since, FreezeLegs(w, legs, since).problem)
  {
    if legs != [] {
      var init, problem := legs[..|legs| - 1], FreezeLegs(w, legs, since).problem;
      assert forall k | 0 <= k < |init| :: init[k] == legs[k];
      if FreezeLegs(w, init, since).Err? {
        FreezeFailsWith(w, init, since);
        var i :| 0 <= i < |init| && UnprovenAt(w, init, since, problem, i);
        assert UnprovenAt(w, legs, since, problem, i);
      } else {
        FreezeIff(w, init, since);
        assert UnprovenAt(w, legs, since, problem, |init|);
      }
    }
  }

  /** What a draft freezes: the request's key, evidence and mode, the one binding and lifecycle, one target
      (and unless disabled one row) for each live leg with its observation's own fields, and one entry for
      each waiting leg, both in the order of the legs. */
  lemma DraftFreezes(w: World, q: Request)
    requires q.evidence.confirmed.At? && Draft(w, q).Ok?
    ensures |w.bindings(q.strategy)| == 1 && |w.lifecycles(w.bindings(q.strategy)[0])| == 1
    ensures var d, b := Draft(w, q).value, w.bindings(q.strategy)[0];
      var live := LiveLegs(w.entryLegs(b));
      && d.key == Key(q.strategy, q.trigger, q.identity) && d.evidence == q.evidence && d.mode == q.mode
      && d.snapshot.strategy == q.strategy && d.snapshot.binding == b && d.snapshot.lifecycle == w.lifecycles(b)[0]
      && d.snapshot.plannedAt == q.plannedAt && d.snapshot.deferred == DeferredLegs(w.entryLegs(b))
      && |d.snapshot.live| == |live| && d.legs == (if q.mode == "disabled" then [] else RowsOf(w, live))
      && forall i | 0 <= i < |live| :: FreezesAs(w, live[i], d.snapshot.live[i], RowOf(w, live[i]))
    ensures forall l: Leg :: (IsLive()(l) <==> MayMove(l)) && (IsWaiting()(l) <==> YetToFill(l))
    ensures var legs := w.entryLegs(w.bindings(q.strategy)[0]);
      InPlace(legs, LiveLegs(legs), IsLive()) && InPlace(legs, Picked(legs, IsWaiting()), IsWaiting())
  {
    DraftFields(w, q);
    forall l: Leg ensures (IsLive()(l) <==> MayMove(l)) && (IsWaiting()(l) <==> YetToFill(l)) { LegsAreSorted(l); }
    PickedInPlace(w.entryLegs(w.bindings(q.strategy)[0]), IsLive());
    PickedInPlace(w.entryLegs(w.bindings(q.strategy)[0]), IsWaiting());
  }

  lemma DraftFields(w: World, q: Request)
    requires q.evidence.confirmed.At? && Draft(w, q).Ok?
    ensures |w.bindings(q.strategy)| == 1 && |w.lifecycles(w.bindings(q.strategy)[0])| == 1
    ensures var d, b := Draft(w, q).value, w.bindings(q.strategy)[0];
      var live := LiveLegs(w.entryLegs(b));
      && d.key == KeyOf(q) && d.evidence == q.evidence && d.mode == q.mode
      && d.snapshot.strategy == q.strategy && d.snapshot.binding == b && d.snapshot.lifecycle == w.lifecycles(b)[0]
      && d.snapshot.plannedAt == q.plannedAt && d.snapshot.deferred == DeferredLegs(w.entryLegs(b))
      && |d.snapshot.live| == |live| && d.legs == (if q.mode == "disabled" then [] else RowsOf(w, live))
      && forall i | 0 <= i < |live| :: FreezesAs(w, live[i], d.snapshot.live[i], RowOf(w, live[i]))
  {
    var live := LiveLegs(w.entryLegs(w.bindings(q.strategy)[0]));
    FreezeIff(w, live, q.evidence.confirmed.time);
    assert FreezeLegs(w, live, q.evidence.confirmed.time).value.1 == RowsOf(w, live);
  }

  function RowOf(w: World, l: Leg): LegRow {
    match Latest(w.observations, l.id, l.pos)
    case None => LegRow(l.id, l.pos, "", "", "")
    case Some(o) => LegRow(l.id, l.pos, o.size, o.average, o.pendingTpsl)
  }

  function RowsOf(w: World, legs: seq<Leg>): (r: seq<LegRow>)
    ensures |r| == |legs| && forall i | 0 <= i < |legs| :: r[i] == RowOf(w, legs[i])
  {
    seq(|legs|, i requires 0 <= i < |legs| => RowOf(w, legs[i]))
  }

  // ---------------------------------------------------------------- racing planners

  /** A reply, with the checked request it answers. */
  datatype Reply = Reply(key: Key, evidence: Evidence, mode: string, answer: Result<Row>)

  datatype Race = Race(rows: seq<Row>, drafts: multiset<Frozen>, replies: seq<Reply>)

  datatype Step = Read(request: Request, world: World) | Insert(draft: Frozen) | Progress(row: nat, status: string)

  /** Any number of planners, each between its two steps for as long as it likes or forever; and the
      workers that move a row's status on. */
  ghost predicate Next(s: Race, step: Step, t: Race) {
    match step
    case Read(r, w) =>
      (match Checked(r)
       case Err(_) => t == s
       case Ok(q) =>
         match Open(s.rows, w, r)
         case Answered(a) => t == s.(replies := s.replies + [Reply(KeyOf(q), q.evidence, q.mode, a)])
         case Drafted(d) => t == s.(drafts := s.drafts + multiset{d}))
    case Insert(d) =>
      && d in s.drafts
      && t == Race(Commit(s.rows, d).0, s.drafts - multiset{d},
         s.replies + [Reply(d.key, d.evidence, d.mode, Commit(s.rows, d).1)])
    case Progress(i, status) =>
      i < |s.rows| && t == s.(rows := s.rows[i := s.rows[i].(status := status)])
  }

  ghost predicate Run(states: seq<Race>, steps: seq<Step>) {
    |states| == |steps| + 1 && forall i | 0 <= i < |steps| :: Next(states[i], steps[i], states[i + 1])
  }

  predicate OneEach(rows: seq<Row>) {
    forall i, j | 0 <= i < j < |rows| :: rows[i].frozen.key != rows[j].frozen.key
  }

  /** Every row of the earlier table is still there with the same frozen part. */
  predicate Grown(before: seq<Row>, after: seq<Row>) {
    |before| <= |after| && forall i | 0 <= i < |before| :: after[i].frozen == before[i].frozen
  }

  /** The reply fits the row of its key: the same evidence and mode got that frozen row, and a
      different one was refused. */
  ghost predicate Fits(reply: Reply, rows: seq<Row>) {
    match reply.answer
    case Ok(row) =>
      && row.frozen.key == reply.key && row.frozen.evidence == reply.evidence && row.frozen.mode == reply.mode
      && exists i :: 0 <= i < |rows| && rows[i].frozen == row.frozen
    case Err(p) =>
      p == ReplayConflict ==>
        exists i :: 0 <= i < |rows| && rows[i].frozen.key == reply.key
                    && (rows[i].frozen.evidence != reply.evidence || rows[i].frozen.mode != reply.mode)
  }

  ghost predicate Settled(s: Race) {
    OneEach(s.rows) && forall k | 0 <= k < |s.replies| :: Fits(s.replies[k], s.rows)
  }

  lemma FitsGrown(reply: Reply, before: seq<Row>, after: seq<Row>)
    requires Fits(reply, before) && Grown(before, after)
    ensures Fits(reply, after)
  {
    match reply.answer
    case Ok(row) =>
      var i :| 0 <= i < |before| && before[i].frozen == row.frozen;
      assert after[i].frozen == row.frozen;
    case Err(p) =>
      if p == ReplayConflict {
        var i :| 0 <= i < |before| && before[i].frozen.key == reply.key
          && (before[i].frozen.evidence != reply.evidence || before[i].frozen.mode != reply.mode);
        assert after[i].frozen == before[i].frozen;
      }
  }

  lemma CommitFits(rows: seq<Row>, d: Frozen)
    requires OneEach(rows)
    ensures var (after, answer) := Commit(rows, d);
      OneEach(after) && Grown(rows, after) && Fits(Reply(d.key, d.evidence, d.mode, answer), after)
  {
    if Find(rows, d.key) == None && DistinctPositions(d.legs) {
      var after := Commit(rows, d).0;
      assert after[|rows|].frozen == d;
    }
  }

  /** A draft's own failures are never the replay conflict. */
  lemma {:induction false} FreezeProblems(w: World, legs: seq<Leg>, since: int)
    ensures FreezeLegs(w, legs, since).Err? ==> FreezeLegs(w, legs, since).problem != ReplayConflict
  {
    if legs != [] { FreezeProblems(w, legs[..|legs| - 1], since); }
  }

  lemma ReadFits(rows: seq<Row>, w: World, r: Request)
    requires Checked(r).Ok? && Open(rows, w, r).Answered?
    ensures var q := Checked(r).value; Fits(Reply(KeyOf(q), q.evidence, q.mode, Open(rows, w, r).reply), rows)
  {
    var q := Checked(r).value;
    if Find(rows, KeyOf(q)) == None && |w.bindings(q.strategy)| == 1 {
      FreezeProblems(w, LiveLegs(w.entryLegs(w.bindings(q.strategy)[0])), q.evidence.confirmed.time);
    }
  }

  lemma RepliesGrown(replies: seq<Reply>, before: seq<Row>, after: seq<Row>)
    requires Grown(before, after) && forall k | 0 <= k < |replies| :: Fits(replies[k], before)
    ensures forall k | 0 <= k < |replies| :: Fits(replies[k], after)
  {
    forall k | 0 <= k < |replies| ensures Fits(replies[k], after) { FitsGrown(replies[k], before, after); }
  }

  lemma StepSettles(s: Race, step: Step, t: Race)
    requires Settled(s) && Next(s, step, t)
    ensures Settled(t) && Grown(s.rows, t.rows)
  {
    match step
    case Read(r, w) =>
      if Checked(r).Ok? && Open(s.rows, w, r).Answered? { ReadFits(s.rows, w, r); }
    case Insert(d) =>
      CommitFits(s.rows, d);
      RepliesGrown(s.replies, s.rows, t.rows);
    case Progress(i, status) =>
      RepliesGrown(s.replies, s.rows, t.rows);
  }

  lemma {:induction false} RunSettles(states: seq<Race>, steps: seq<Step>, n: nat)
    requires Run(states, steps) && n < |states| && Settled(states[0])
    ensures Settled(states[n]) && Grown(states[0].rows, states[n].rows)
  {
    if n > 0 {
      RunSettles(states, steps, n - 1);
      assert Next(states[n - 1], steps[n - 1], states[n - 1 + 1]);
      StepSettles(states[n - 1], steps[n - 1], states[n]);
    }
  }

  /** Over any interleaving of any number of planners: each trigger has at most one convergence, and any
      two planners that were given one for the same trigger were given the same frozen targets and legs
      and had asked with the same evidence and mode. */
  lemma PlannersAgree(states: seq<Race>, steps: seq<Step>, n: nat, j: nat, k: nat)
    requires Run(states, steps) && n < |states| && Settled(states[0])
    requires j < |states[n].replies| && k < |states[n].replies|
    requires states[n].replies[j].key == states[n].replies[k].key
    requires states[n].replies[j].answer.Ok? && states[n].replies[k].answer.Ok?
    ensures OneEach(states[n].rows)
    ensures states[n].replies[j].answer.value.frozen == states[n].replies[k].answer.value.frozen
    ensures states[n].replies[j].evidence == states[n].replies[k].evidence &&
      states[n].replies[j].mode == states[n].replies[k].mode
  {
    RunSettles(states, steps, n);
    var s := states[n];
    assert Fits(s.replies[j], s.rows) && Fits(s.replies[k], s.rows);
    var a :| 0 <= a < |s.rows| && s.rows[a].frozen == s.replies[j].answer.value.frozen;
    var b :| 0 <= b < |s.rows| && s.rows[b].frozen == s.replies[k].answer.value.frozen;
    assert a == b by { assert !(a < b) && !(b < a); }
  }

  /** Once a trigger has its convergence, a planner for it is served or refused by its evidence and mode
      alone, at the first read or at the insert alike, and the frozen row stays as it is. */
  lemma LateComersAreServedIff(rows: seq<Row>, i: nat, r: Request, w: World, d: Frozen)
    requires OneEach(rows) && i < |rows|
    ensures Checked(r).Ok? && rows[i].frozen.key ==
              Key(Checked(r).value.strategy, Checked(r).value.trigger, Checked(r).value.identity) ==>
      (var q := Checked(r).value;
       Open(rows, w, r) == Answered(
         if q.evidence == rows[i].frozen.evidence && q.mode == rows[i].frozen.mode then Ok(rows[i])
         else Err(ReplayConflict)))
    ensures d.key == rows[i].frozen.key ==>
      Commit(rows, d) == (rows,
        if d.evidence == rows[i].frozen.evidence && d.mode == rows[i].frozen.mode then Ok(rows[i])
        else Err(ReplayConflict))
  {
    FoundIsIt(rows, i);
  }

  lemma FoundIsIt(rows: seq<Row>, i: nat)
    requires OneEach(rows) && i < |rows|
    ensures Find(rows, rows[i].frozen.key) == Some(i)
  {
    var j := Find(rows, rows[i].frozen.key).value;
    assert !(i < j) && !(j < i);
  }

  // ---------------------------------------------------------------- the first insert

  /** A planner that meets nobody between its read and its insert. */
  function PlanAlone(rows: seq<Row>, w: World, r: Request): (seq<Row>, Result<Row>) {
    match Open(rows, w, r)
    case Answered(a) => (rows, a)
    case Drafted(d) => Commit(rows, d)
  }

  /** The live legs of the binding a request is about. */
  function LiveFor(w: World, q: Request): seq<Leg> {
    if |w.bindings(q.strategy)| == 1 then LiveLegs(w.entryLegs(w.bindings(q.strategy)[0])) else []
  }

  predicate PositionsDiffer(legs: seq<Leg>) { forall i, j | 0 <= i < j < |legs| :: legs[i].pos != legs[j].pos }

  /** The unique index over order legs: no two of one venue share a position id that is not empty. */
  predicate PositionIndex(legs: seq<Leg>) {
    forall i, j | 0 <= i < j < |legs| && legs[i].pos != "" && legs[i].venue == legs[j].venue ::
      legs[i].pos != legs[j].pos
  }

  lemma DraftPositions(w: World, q: Request)
    requires q.evidence.confirmed.At? && Draft(w, q).Ok?
    ensures DistinctPositions(Draft(w, q).value.legs) <==> (q.mode == "disabled" || PositionsDiffer(LiveFor(w, q)))
  {
    DraftFields(w, q);
    var d, live := Draft(w, q).value, LiveFor(w, q);
    if q.mode != "disabled" {
      assert forall i | 0 <= i < |live| :: d.legs[i].pos == live[i].pos;
      if DistinctPositions(d.legs) {
        forall i, j | 0 <= i < j < |live| ensures live[i].pos != live[j].pos { assert d.legs[i].pos != d.legs[j].pos; }
      }
    }
  }

  /** An unplanned trigger whose targets can be frozen is planned exactly when the mode is disabled or no two
      live legs of the binding share a position; otherwise the insert is refused and nothing is stored. */
  lemma FirstInsertPlansIff(rows: seq<Row>, w: World, r: Request)
    requires Checked(r).Ok? && Find(rows, KeyOf(Checked(r).value)) == None && Draft(w, Checked(r).value).Ok?
    ensures var q := Checked(r).value;
      var (after, reply) := PlanAlone(rows, w, r);
      && (reply.Ok? <==> q.mode == "disabled" || PositionsDiffer(LiveFor(w, q)))
      && (reply.Ok? ==>
            && after == rows + [reply.value] && reply.value.frozen == Draft(w, q).value
            && reply.value.status == if q.mode == "disabled" then "blocked" else "planned")
      && (!reply.Ok? ==> after == rows && reply == Err(ReservationConflict))
  {
    DraftPositions(w, Checked(r).value);
  }

  lemma {:induction false} IndexedPositionsDiffer(legs: seq<Leg>)
    requires PositionIndex(legs) && forall i, j | 0 <= i < j < |legs| :: legs[i].venue == legs[j].venue
    ensures PositionsDiffer(LiveLegs(legs))
  {
    if legs != [] {
      var rest := legs[1..];
      IndexedPositionsDiffer(rest);
      forall j | 0 <= j < |LiveLegs(rest)| && Live(legs[0]) ensures legs[0].pos != LiveLegs(rest)[j].pos {
        PickedHas(rest, IsLive(), LiveLegs(rest)[j]);
        LivePositionIsNamed(legs[0]);
        var k :| 0 <= k < |rest| && rest[k] == LiveLegs(rest)[j];
        assert legs[k + 1] == rest[k];
      }
    }
  }

  lemma LivePositionIsNamed(l: Leg)
    requires Live(l)
    ensures l.pos != ""
  {
    assert Strip("") == "";
  }

  /** While the position index holds and the binding's legs are of one venue, no planner alone or late ever
      meets the reservation conflict. */
  lemma IndexRulesOutTheConflict(rows: seq<Row>, meanwhile: seq<Row>, w: World, r: Request)
    requires Checked(r).Ok? && |w.bindings(Checked(r).value.strategy)| == 1
    requires var legs := w.entryLegs(w.bindings(Checked(r).value.strategy)[0]);
      PositionIndex(legs) && forall i, j | 0 <= i < j < |legs| :: legs[i].venue == legs[j].venue
    ensures Open(rows, w, r).Drafted? ==> Commit(rows + meanwhile, Open(rows, w, r).draft).1 != Err(ReservationConflict)
  {
    if Open(rows, w, r).Drafted? {
      var q := Checked(r).value;
      var legs := w.entryLegs(w.bindings(q.strategy)[0]);
      IndexedPositionsDiffer(legs);
      DraftPositions(w, q);
    }
  }

  // A legacy database: two live legs of one binding share a position, each with its own observation.

  function LegacyLeg(id: int): Leg { Leg(id, "deepcoin", "P", "active", "verified", "", "") }

  function LegacyObservation(id: int, leg: int): Observation {
    Observation(id, leg, "P", "1", "100", true, 5, "f", "[]")
  }

  function LegacyWorld(): World {
    World(_ => [320], _ => [952], _ => [LegacyLeg(1), LegacyLeg(2)], [LegacyObservation(1, 1), LegacyObservation(2, 2)])
  }

  function LegacyRequest(mode: string): Request {
    Request("tp1_fill", "t", Evidence("e", At(5)), "s", 6, mode)
  }

  lemma LegacyRequestChecks()
    ensures Checked(LegacyRequest("live")) == Ok(LegacyRequest("live"))
  {
    assert Stripped("tp1_fill") && Stripped("t") && Stripped("s") && Stripped("live");
    assert Lower("live") == "live";
  }

  lemma LegacyLegsAreLive()
    ensures LiveLegs([LegacyLeg(1), LegacyLeg(2)]) == [LegacyLeg(1), LegacyLeg(2)]
  {
    assert Lower("active") == "active" && Lower("verified") == "verified" && Strip("P") == "P";
    assert [LegacyLeg(1), LegacyLeg(2)][1..] == [LegacyLeg(2)] && [LegacyLeg(2)][1..] == [];
  }

  lemma LegacyObservationsAreLatest()
    ensures Latest(LegacyWorld().observations, 1, "P") == Some(LegacyObservation(1, 1))
    ensures Latest(LegacyWorld().observations, 2, "P") == Some(LegacyObservation(2, 2))
  {
    assert LegacyObservation(1, 1) in LegacyWorld().observations &&
      LegacyObservation(2, 2) in LegacyWorld().observations;
  }

  lemma LegacyDraft()
    ensures Draft(LegacyWorld(), LegacyRequest("live")).Ok?
  {
    var w, legs := LegacyWorld(), [LegacyLeg(1), LegacyLeg(2)];
    LegacyLegsAreLive();
    LegacyObservationsAreLatest();
    assert forall l | l in legs :: Proven(w, l, 5);
    PickedHas(legs, IsLive(), legs[0]);
    LegsAreSorted(legs[0]);
    DraftsIff(w, LegacyRequest("live"));
  }

  /** On it the first plan of a proven trigger is refused although nobody else planned it. */
  lemma LegacyPositionsConflict()
    ensures PlanAlone([], LegacyWorld(), LegacyRequest("live")) == ([], Err(ReservationConflict))
  {
    var w, q := LegacyWorld(), LegacyRequest("live");
    LegacyRequestChecks();
    LegacyLegsAreLive();
    LegacyDraft();
    FirstInsertPlansIff([], w, q);
    assert LiveFor(w, q)[0].pos == LiveFor(w, q)[1].pos;
  }
}
