// The usage row, its poll plan and its backoff (internal/usage/poll.go,
// internal/usage/store.go, and the fetch decision of
// internal/switcher/collect.go). Times are whole epoch seconds held as reals.

module UsageSpec {
  import opened Base

  const MIN_INTERVAL := 180.0
  const URGENT_INTERVAL := 150.0
  const ACTIVE_MAX := 300.0
  const CANDIDATE_DEFAULT := 300.0
  const CANDIDATE_MAX := 600.0
  const EXHAUSTED_INTERVAL := 600.0
  const MOVEMENT_DELTA := 1.0
  const JITTER := 0.1
  const ESCALATION_MARGIN := 15.0
  const RESET_SLACK := 60.0
  const POST_429_MIN := 360.0
  const POST_429_MAX := 1800.0
  const POST_429_MULT := 1.5
  const RECENT_429 := 3600.0
  const SERVE_TTL := 180.0
  const BACKOFF_BASE := 30.0
  const BACKOFF_CAP := 600.0
  const RETRY_AFTER_MAX := 4500.0
  const RETRY_AFTER_MARGIN := 900.0
  const EDGE_BACKOFF := 300.0
  const OTHER_MAX := 3600.0

  function Abs(a: real): real { if a < 0.0 then -a else a }

  /** pct None is unknown, previous 0 none, a reset of 0 unknown. */
  datatype PlanInput = PlanInput(
    active: bool, previous: real, prevPct: Option<real>, newPct: Option<real>, threshold: real,
    recent429: bool, exhausted: bool, earliestReset: int, limitingReset: int)

  predicate Moved(p: PlanInput) {
    p.prevPct.Some? && p.newPct.Some? && Abs(p.newPct.value - p.prevPct.value) >= MOVEMENT_DELTA
  }

  function Cadence(p: PlanInput): real {
    var default := if p.active then MIN_INTERVAL else CANDIDATE_DEFAULT;
    var ceiling := if p.active then ACTIVE_MAX else CANDIDATE_MAX;
    var base := if p.previous == 0.0 then default else p.previous;
    var steady :=
      if p.prevPct.None? || p.newPct.None? then default
      else if Moved(p) then Max(MIN_INTERVAL, base / 2.0)
      else Min(ceiling, Max(MIN_INTERVAL, base * 1.5));
    var paced :=
      if p.active && Moved(p) && !p.recent429 && p.newPct.value >= p.threshold - ESCALATION_MARGIN
      then URGENT_INTERVAL else steady;
    var cooled :=
      if p.recent429 then Min(POST_429_MAX, Max(paced, Max(base * POST_429_MULT, POST_429_MIN))) else paced;
    if p.exhausted then Max(cooled, EXHAUSTED_INTERVAL) else cooled
  }

  /** The instant a reset pulls the plan in to, if it has one. */
  function ResetPoll(p: PlanInput): Option<real> {
    if p.exhausted && p.limitingReset > 0 then Some(p.limitingReset as real + RESET_SLACK)
    else if !p.exhausted && p.earliestReset > 0 then Some(p.earliestReset as real + RESET_SLACK)
    else None
  }

  function Jittered(interval: real, rand: real): real {
    interval * (1.0 + JITTER * (2.0 * rand - 1.0))
  }

  function NextPoll(p: PlanInput, now: real, rand: real): real {
    var jittered := now + Jittered(Cadence(p), rand);
    match ResetPoll(p)
    case None => jittered
    case Some(reset) => Min(jittered, reset)
  }

  /** One account's row; 0 in a time is never. */
  datatype Row = Row(
    fetchedAt: real, lastAttemptAt: real, failures: nat, lastError: string, backoffUntil: Option<real>,
    nextPollAt: Option<real>, interval: Option<real>, last429At: Option<real>, strikes: nat, struck: string)

  const EMPTY := Row(0.0, 0.0, 0, "", None, None, None, None, 0, "")

  predicate Fresh(r: Row, now: real) {
    r.fetchedAt != 0.0 && now - r.fetchedAt <= SERVE_TTL
  }

  predicate InBackoff(r: Row, now: real) {
    r.backoffUntil.Some? && now < r.backoffUntil.value
  }

  predicate PlannedDue(r: Row, now: real) {
    r.nextPollAt.Some? && now >= r.nextPollAt.value
  }

  /** A plan far beyond its own cadence: obsolete, so due. */
  predicate Overslept(r: Row, now: real) {
    r.nextPollAt.Some? &&
    var iv := if r.interval.Some? then Max(r.interval.value, EXHAUSTED_INTERVAL) else CANDIDATE_MAX;
    r.nextPollAt.value > now + iv * 1.1 + RESET_SLACK
  }

  predicate PollDue(r: Option<Row>, now: real) {
    if r.None? || r.value.fetchedAt == 0.0 then true
    else if InBackoff(r.value, now) then false
    else if r.value.nextPollAt.None? then !Fresh(r.value, now)
    else PlannedDue(r.value, now) || Overslept(r.value, now)
  }

  predicate ServesFresh(r: Option<Row>, active: bool, now: real) {
    r.Some? && Fresh(r.value, now) && (!active || !PlannedDue(r.value, now))
  }

  predicate TokenDead(r: Row, fp: string) {
    r.strikes >= 1 && (r.struck == "" || r.struck == fp)
  }

  /** fill reaches the network only then. */
  predicate MayFetch(r: Option<Row>, active: bool, fp: string, now: real) {
    && !(r.Some? && TokenDead(r.value, fp))
    && !ServesFresh(r, active, now)
    && !(r.Some? && (InBackoff(r.value, now) || !PollDue(r, now)))
  }

  predicate Recent429(r: Option<Row>, now: real) {
    r.Some? && r.value.last429At.Some? &&
    var at := r.value.last429At.value;
    var anchor :=
      if r.value.lastError == "http-429" && r.value.backoffUntil.Some? && r.value.backoffUntil.value > at
      then r.value.backoffUntil.value else at;
    now < anchor + RECENT_429
  }

  function Pow2(n: nat): real {
    if n == 0 then 1.0 else 2.0 * Pow2(n - 1)
  }

  function Exponential(failures: nat): real
    requires failures >= 1
  {
    Min(BACKOFF_BASE * Pow2(if failures - 1 < 32 then failures - 1 else 32), BACKOFF_CAP)
  }

  /** retryAfter 0 is no Retry-After header. */
  function FailureBackoff(failures: nat, retryAfter: real, rateLimited: bool): real
    requires failures >= 1
  {
    var computed := Exponential(failures);
    if retryAfter == 0.0 then
      if rateLimited then Min(Max(computed, EDGE_BACKOFF), BACKOFF_CAP) else computed
    else
      var asked := if retryAfter > BACKOFF_CAP && rateLimited then retryAfter + RETRY_AFTER_MARGIN else retryAfter;
      Max(Min(asked, if rateLimited then RETRY_AFTER_MAX else OTHER_MAX), computed)
  }

  function AfterSuccess(r: Row, now: real): Row {
    r.(fetchedAt := now, lastAttemptAt := now, failures := 0, lastError := "", backoffUntil := None,
       strikes := 0, struck := "")
  }

  function AfterFailure(r: Row, kind: string, rateLimited: bool, retryAfter: real, now: real): Row {
    r.(lastAttemptAt := now, failures := r.failures + 1, lastError := kind,
       last429At := if rateLimited then Some(now) else r.last429At,
       backoffUntil := Some(now + FailureBackoff(r.failures + 1, retryAfter, rateLimited)))
  }

  /** What a fetch measured, as the planner needs it; the previous plan comes from the row. */
  datatype Reading = Reading(
    prevPct: Option<real>, newPct: Option<real>, threshold: real, exhausted: bool, earliestReset: int, limitingReset: int)

  function InputFor(r: Option<Row>, active: bool, m: Reading, now: real): PlanInput {
    PlanInput(active, if r.Some? && r.value.interval.Some? then r.value.interval.value else 0.0,
              m.prevPct, m.newPct, m.threshold, Recent429(r, now), m.exhausted, m.earliestReset, m.limitingReset)
  }

  /** persistSuccess: the measurement and the next plan. */
  function Persisted(r: Option<Row>, active: bool, m: Reading, now: real, rand: real): Row {
    var p := InputFor(r, active, m, now);
    AfterSuccess(if r.Some? then r.value else EMPTY, now)
      .(nextPollAt := Some(NextPoll(p, now, rand)), interval := Some(Cadence(p)))
  }

  /** What one request answered with; status is 0 without an HTTP one, retryAfter 0 without the header. */
  datatype Reply =
    | Measured(m: Reading)
    | Failed(kind: string, status: int, retryAfter: real)

  /** What the gate made of a 401: a dead lineage, a credential to retry with (and that retry's reply), or neither. */
  datatype Gate = Dead(fp: string) | Usable(second: Reply) | Nothing

  /**
   * One collection of a row that its caller lets reach the network. fp is the
   * stored credential's; owned is whether a live session owns it, refreshable
   * whether it has a refresh token; saved is whether the row's update was written.
   */
  datatype Fill = Fill(
    now: real, active: bool, owned: bool, refreshable: bool, fp: string, first: Reply, gate: Gate, rand: real, saved: bool)

  /** A 401 that the gate is run for. */
  predicate RunsGate(f: Fill) {
    f.first.Failed? && f.first.status == 401 && !f.active && !f.owned && f.refreshable
  }

  /** The requests of one collection, by their replies. */
  function Replies(f: Fill): (rs: seq<Reply>)
    ensures 1 <= |rs| <= 2
  {
    if RunsGate(f) && f.gate.Usable? then [f.first, f.gate.second] else [f.first]
  }

  /** The gate found the lineage dead, and that is what is recorded. */
  predicate Strikes(f: Fill) {
    RunsGate(f) && f.gate.Dead?
  }

  function Last(f: Fill): Reply {
    Replies(f)[|Replies(f)| - 1]
  }

  predicate Succeeds(f: Fill) {
    Last(f).Measured?
  }

  function Struck(r: Row, fp: string, now: real): Row {
    r.(lastAttemptAt := now, strikes := r.strikes + 1, struck := fp)
  }

  /** The row afterwards: only the last reply is recorded, or the strike. */
  function Filled(r: Option<Row>, f: Fill): Option<Row> {
    var row := if r.Some? then r.value else EMPTY;
    if !f.saved then r
    else if Strikes(f) then Some(Struck(row, f.gate.fp, f.now))
    else match Last(f)
      case Measured(m) => Some(Persisted(r, f.active, m, f.now, f.rand))
      case Failed(kind, status, retryAfter) => Some(AfterFailure(row, kind, status == 429, retryAfter, f.now))
  }
}

module Usage {
  import opened Base
  import opened UsageSpec

  /** The planner, step by step as the code reassigns its interval. */
  method PlanAfterFetch(p: PlanInput, now: real, rand: real) returns (next: real, interval: real)
    ensures next == NextPoll(p, now, rand) && interval == Cadence(p)
  {
    var default, ceiling := CANDIDATE_DEFAULT, CANDIDATE_MAX;
    if p.active {
      default, ceiling := MIN_INTERVAL, ACTIVE_MAX;
    }
    var base := p.previous;
    if base == 0.0 {
      base := default;
    }
    if p.prevPct.None? || p.newPct.None? {
      interval := default;
    } else if Abs(p.newPct.value - p.prevPct.value) >= MOVEMENT_DELTA {
      interval := Max(MIN_INTERVAL, base / 2.0);
    } else {
      interval := Min(ceiling, Max(MIN_INTERVAL, base * 1.5));
    }
    if p.active && Moved(p) && !p.recent429 && p.newPct.value >= p.threshold - ESCALATION_MARGIN {
      interval := URGENT_INTERVAL;
    }
    if p.recent429 {
      var increased := Max(base * POST_429_MULT, POST_429_MIN);
      interval := Min(POST_429_MAX, Max(interval, increased));
    }
    if p.exhausted {
      interval := Max(interval, EXHAUSTED_INTERVAL);
    }
    assert interval == Cadence(p);
    next := now + Jittered(interval, rand);
    if p.exhausted && p.limitingReset > 0 {
      next := Min(next, p.limitingReset as real + RESET_SLACK);
    } else if !p.exhausted && p.earliestReset > 0 {
      next := Min(next, p.earliestReset as real + RESET_SLACK);
    }
  }

  class Entry {
    var fetchedAt: real
    var lastAttemptAt: real
    var failures: nat
    var lastError: string
    var backoffUntil: Option<real>
    var nextPollAt: Option<real>
    var interval: Option<real>
    var last429At: Option<real>
    var strikes: nat
    var struck: string

    constructor ()
      ensures Contents() == EMPTY
    {
      fetchedAt, lastAttemptAt, failures, lastError := 0.0, 0.0, 0, "";
      backoffUntil, nextPollAt, interval, last429At := None, None, None, None;
      strikes, struck := 0, "";
    }

    ghost function Contents(): Row
      reads this
    {
      Row(fetchedAt, lastAttemptAt, failures, lastError, backoffUntil, nextPollAt, interval, last429At, strikes, struck)
    }

    method RecordSuccess(now: real)
      modifies this
      ensures Contents() == AfterSuccess(old(Contents()), now)
    {
      fetchedAt := now;
      lastAttemptAt := now;
      failures := 0;
      lastError := "";
      backoffUntil := None;
      strikes := 0;
      struck := "";
    }

    method RecordFailure(kind: string, rateLimited: bool, retryAfter: real, now: real)
      modifies this
      ensures Contents() == AfterFailure(old(Contents()), kind, rateLimited, retryAfter, now)
    {
      lastAttemptAt := now;
      failures := failures + 1;
      lastError := kind;
      if rateLimited {
        last429At := Some(now);
      }
      backoffUntil := Some(now + FailureBackoff(failures, retryAfter, rateLimited));
    }

    method RecordAuthDead(fp: string, now: real)
      modifies this
      ensures Contents() == Struck(old(Contents()), fp, now)
    {
      lastAttemptAt := now;
      strikes := strikes + 1;
      struck := fp;
    }

    method ClearDeadToken()
      modifies this
      ensures Contents() == old(Contents()).(strikes := 0, struck := "")
    {
      strikes := 0;
      struck := "";
    }

    /** The success path of a fetch; existed is whether the row was in the store. */
    method PersistSuccess(existed: bool, active: bool, m: Reading, now: real, rand: real)
      requires !existed ==> Contents() == EMPTY
      modifies this
      ensures Contents() == Persisted(if existed then Some(old(Contents())) else None, active, m, now, rand)
    {
      ghost var row := if existed then Some(Contents()) else None;
      var previous := if existed && interval.Some? then interval.value else 0.0;
      var anchor := if last429At.Some? then last429At.value else 0.0;
      if lastError == "http-429" && backoffUntil.Some? && backoffUntil.value > anchor {
        anchor := backoffUntil.value;
      }
      var recent429 := existed && last429At.Some? && now < anchor + RECENT_429;
      RecordSuccess(now);
      var p := PlanInput(
        active, previous, m.prevPct, m.newPct, m.threshold, recent429, m.exhausted, m.earliestReset, m.limitingReset);
      assert p == InputFor(row, active, m, now);
      var next, iv := PlanAfterFetch(p, now, rand);
      nextPollAt := Some(next);
      interval := Some(iv);
    }

    /** One collection; existed is whether the row was in the store, fetches how many requests were made. */
    method Collect(existed: bool, f: Fill) returns (fetches: nat)
      requires !existed ==> Contents() == EMPTY
      modifies this
      ensures var r := if existed then Some(old(Contents())) else None;
        if MayFetch(r, f.active, f.fp, f.now)
        then fetches == |Replies(f)| && Contents() == (if Filled(r, f).Some? then Filled(r, f).value else EMPTY)
        else fetches == 0 && Contents() == old(Contents())
    {
      ghost var row := if existed then Some(Contents()) else None;
      if !MayFetch(if existed then Some(Row(fetchedAt, lastAttemptAt, failures, lastError, backoffUntil, nextPollAt,
                                            interval, last429At, strikes, struck)) else None, f.active, f.fp, f.now) {
        return 0;
      }
      fetches := 1;
      var reply := f.first;
      if reply.Failed? && reply.status == 401 && !f.active && !f.owned && f.refreshable {
        match f.gate
        case Dead(fp) =>
          if f.saved {
            RecordAuthDead(fp, f.now);
          }
          return;
        case Usable(second) =>
          reply := second;
          fetches := 2;
        case Nothing =>
      }
      if !f.saved {
        return;
      }
      match reply
      case Measured(m) => PersistSuccess(existed, f.active, m, f.now, f.rand);
      case Failed(kind, status, retryAfter) => RecordFailure(kind, status == 429, retryAfter, f.now);
    }
  }
}

module UsageLaws {
  import opened Base
  import opened UsageSpec

  /** The smallest gap a plan leaves, and the bounds of its cadence. */
  const FLOOR := 135.0

  predicate Unit(rand: real) {
    0.0 <= rand < 1.0
  }

  lemma CadenceBounds(p: PlanInput)
    requires 0.0 <= p.previous <= POST_429_MAX
    ensures URGENT_INTERVAL <= Cadence(p) <= POST_429_MAX
  {
  }

  lemma Product(a: real, b: real)
    requires a >= 0.0 && b >= 0.0
    ensures a * b >= 0.0
  {
  }

  lemma JitterBounds(c: real, rand: real)
    requires URGENT_INTERVAL <= c && Unit(rand)
    ensures FLOOR <= Jittered(c, rand) <= c * 1.1
  {
    JitterTenth(c, rand);
  }

  lemma JitterTenth(c: real, rand: real)
    requires c >= 0.0 && Unit(rand)
    ensures c * 0.9 <= Jittered(c, rand) <= c * 1.1
  {
    var over := JITTER * 2.0 * rand;
    Product(c, over);
    Product(c, 0.2 - over);
    assert Jittered(c, rand) == c * 0.9 + c * over;
    assert c * 1.1 == c * 0.9 + c * over + c * (0.2 - over);
  }

  /** A plan is at most a tenth past its cadence, and earlier than the floor exactly when a reset pulls it in. */
  lemma PlanBounds(p: PlanInput, now: real, rand: real)
    requires Unit(rand) && 0.0 <= p.previous <= POST_429_MAX
    ensures URGENT_INTERVAL <= Cadence(p) <= POST_429_MAX
    ensures NextPoll(p, now, rand) <= now + Cadence(p) * 1.1
    ensures NextPoll(p, now, rand) < now + FLOOR <==>
      ResetPoll(p).Some? && ResetPoll(p).value < now + FLOOR
  {
    CadenceBounds(p);
    JitterBounds(Cadence(p), rand);
  }

  /** Within the pacing window of a 429 the interval is at least six minutes, and half as long again as it was. */
  lemma PacedAfter429(p: PlanInput)
    requires p.recent429 && 0.0 <= p.previous <= 1800.0
    ensures Cadence(p) >= 360.0 && Cadence(p) >= Min(1800.0, 1.5 * p.previous)
  {
  }

  /** How many percent the account has moved by, when both readings are known. */
  function Movement(p: PlanInput): Option<real> {
    if p.prevPct.None? || p.newPct.None? then None
    else if p.newPct.value >= p.prevPct.value then Some(p.newPct.value - p.prevPct.value)
    else Some(p.prevPct.value - p.newPct.value)
  }

  /** The active account is moving within 15 percent of the threshold, and no 429 is recent. */
  predicate Urgent(p: PlanInput) {
    p.active && Movement(p).Some? && Movement(p).value >= 1.0 && p.newPct.value >= p.threshold - 15.0 && !p.recent429
  }

  /**
   * When the interval shrinks, without a recent 429 or exhaustion and exactly: on
   * movement, to no less than three minutes, or to two and a half when urgent; on
   * an unknown movement, to the default; and when idle, only to the ceiling.
   */
  lemma ShrinksIff(p: PlanInput)
    requires !p.recent429 && !p.exhausted && 0.0 < p.previous <= 1800.0
    ensures Cadence(p) < p.previous <==>
      match Movement(p)
      case None => p.previous > if p.active then 180.0 else 300.0
      case Some(d) =>
        if d >= 1.0 then p.previous > if Urgent(p) then 150.0 else 180.0
        else p.previous > if p.active then 300.0 else 600.0
  {
  }

  /** Below three minutes only, and then at two and a half, when urgent and not exhausted; ten at least when exhausted. */
  lemma FloorIff(p: PlanInput)
    requires 0.0 <= p.previous <= 1800.0
    ensures Cadence(p) < 180.0 <==> Urgent(p) && !p.exhausted
    ensures Cadence(p) < 180.0 ==> Cadence(p) == 150.0
    ensures p.exhausted ==> Cadence(p) >= 600.0
  {
  }

  /** Moving without urgency halves the interval, down to three minutes. */
  lemma MovingHalves(p: PlanInput)
    requires Movement(p).Some? && Movement(p).value >= 1.0 && !Urgent(p) && !p.recent429 && !p.exhausted
    requires 0.0 < p.previous <= 1800.0
    ensures Cadence(p) >= 180.0 && Cadence(p) >= p.previous / 2.0
    ensures Cadence(p) == 180.0 || Cadence(p) * 2.0 == p.previous
  {
  }

  /** The interval after n idle plans in a row. */
  function Idle(p: PlanInput, n: nat): real {
    if n == 0 then p.previous else Cadence(p.(previous := Idle(p, n - 1)))
  }

  /** An idle account is polled ever more slowly: after at most four plans in a row, at its ceiling. */
  lemma IdleReachesCeiling(p: PlanInput, n: nat)
    requires Movement(p).Some? && Movement(p).value < 1.0 && !p.recent429 && !p.exhausted
    requires 150.0 <= p.previous <= 1800.0 && n >= 4
    ensures Idle(p, n) == if p.active then 300.0 else 600.0
  {
    if n == 4 {
      var ceiling := if p.active then 300.0 else 600.0;
      var a := Idle(p, 1);
      IdleStep(p, p.previous);
      IdleStep(p, a);
      IdleStep(p, Idle(p, 2));
      IdleStep(p, Idle(p, 3));
      assert Idle(p, 2) == Cadence(p.(previous := a));
      assert Idle(p, 3) == Cadence(p.(previous := Idle(p, 2)));
      assert Idle(p, 4) == Cadence(p.(previous := Idle(p, 3)));
      assert p.(previous := p.previous) == p;
    } else {
      IdleReachesCeiling(p, n - 1);
      IdleStep(p, Idle(p, n - 1));
    }
  }

  lemma IdleStep(p: PlanInput, previous: real)
    requires Movement(p).Some? && Movement(p).value < 1.0 && !p.recent429 && !p.exhausted && previous >= 150.0
    ensures var next := Cadence(p.(previous := previous));
      next >= 180.0 && (next == (if p.active then 300.0 else 600.0) || next == previous * 1.5)
      && next <= if p.active then 300.0 else 600.0
  {
  }

  // --- runs over one row ----------------------------------------------------

  /** One thing that happens to a row: a collection, a strike before any request, a credential write. */
  datatype Step =
    | Collect(f: Fill)
    | AuthDead(at: real, fp: string)
    | Heal(at: real)

  /** The row, the time of the last step, and the times of the successful fetches. */
  datatype World = World(row: Option<Row>, clock: real, fetched: seq<real>)

  predicate Sane(r: Reply) {
    r.Failed? ==> r.retryAfter >= 0.0
  }

  function Time(s: Step): real {
    if s.Collect? then s.f.now else s.at
  }

  ghost predicate Enabled(w: World, s: Step) {
    && Time(s) >= w.clock
    && (s.Collect? ==>
          && MayFetch(w.row, s.f.active, s.f.fp, s.f.now) && Unit(s.f.rand)
          && Sane(s.f.first) && (s.f.gate.Usable? ==> Sane(s.f.gate.second))
          && (s.f.gate.Dead? ==> s.f.gate.fp != ""))
  }

  function RowOf(w: World): Row {
    if w.row.Some? then w.row.value else EMPTY
  }

  /** The step makes a successful fetch. */
  predicate Fetches(s: Step) {
    s.Collect? && Succeeds(s.f)
  }

  function Next(w: World, s: Step): World {
    match s
    case Collect(f) =>
      World(Filled(w.row, f), f.now, if Succeeds(f) then w.fetched + [f.now] else w.fetched)
    case AuthDead(at, fp) => World(Some(Struck(RowOf(w), fp, at)), at, w.fetched)
    case Heal(at) =>
      World(if w.row.None? then None else Some(w.row.value.(strikes := 0, struck := "")), at, w.fetched)
  }

  ghost predicate Inv(w: World) {
    && w.clock > 0.0
    && (w.row.Some? ==>
          var r := w.row.value;
          && (r.interval.Some? <==> r.nextPollAt.Some?)
          && (r.nextPollAt.Some? <==> r.fetchedAt != 0.0)
          && (r.interval.Some? ==>
                && URGENT_INTERVAL <= r.interval.value <= POST_429_MAX
                && r.nextPollAt.value <= r.fetchedAt + r.interval.value * 1.1
                && 0.0 < r.fetchedAt <= w.clock))
  }

  lemma StepKeepsInv(w: World, s: Step)
    requires Inv(w) && Enabled(w, s)
    ensures Inv(Next(w, s))
  {
    if Fetches(s) {
      PlanBounds(InputFor(w.row, s.f.active, Last(s.f).m, s.f.now), s.f.now, s.f.rand);
    }
  }

  ghost predicate Run(ws: seq<World>, steps: seq<Step>) {
    && |ws| == |steps| + 1
    && ws[0].clock > 0.0 && ws[0].row.None? && ws[0].fetched == []
    && forall i :: 0 <= i < |steps| ==> Enabled(ws[i], steps[i]) && ws[i + 1] == Next(ws[i], steps[i])
  }

  lemma {:induction false} RunKeepsInv(ws: seq<World>, steps: seq<Step>, i: nat)
    requires Run(ws, steps) && i < |ws|
    ensures Inv(ws[i])
    decreases i
  {
    if i > 0 {
      RunKeepsInv(ws, steps, i - 1);
      assert Enabled(ws[i - 1], steps[i - 1]);
      StepKeepsInv(ws[i - 1], steps[i - 1]);
    }
  }

  /** Over any run the stored cadence is in bounds and the stored plan is never taken for an obsolete one. */
  lemma PlanNeverOverslept(ws: seq<World>, steps: seq<Step>, i: nat, now: real)
    requires Run(ws, steps) && i < |ws| && ws[i].row.Some? && now >= ws[i].clock
    ensures !Overslept(ws[i].row.value, now)
    ensures ws[i].row.value.interval.Some? ==> 150.0 <= ws[i].row.value.interval.value <= 1800.0
  {
    RunKeepsInv(ws, steps, i);
  }

  /** A success of this step is saved. */
  predicate SavesFetch(s: Step) {
    Fetches(s) ==> s.f.saved
  }

  /** The plan that a success of this step makes is not pulled in below the floor by a reset. */
  ghost predicate KeepsFloor(w: World, s: Step, floor: real) {
    Fetches(s) ==>
      var reset := ResetPoll(InputFor(w.row, s.f.active, Last(s.f).m, s.f.now));
      reset.Some? ==> reset.value >= s.f.now + floor
  }

  /** The row's plan keeps the floor from the last success. */
  ghost predicate PlanSpaced(w: World, floor: real) {
    && w.fetched != [] && w.row.Some? && w.row.value.nextPollAt.Some?
    && w.row.value.nextPollAt.value >= w.fetched[|w.fetched| - 1] + floor
  }

  ghost predicate Spaced(ts: seq<real>, floor: real) {
    forall i :: 0 <= i < |ts| - 1 ==> ts[i + 1] >= ts[i] + floor
  }

  /** After a saved success whose plan was not clamped, the row is planned past the floor until the next one. */
  lemma {:induction false} StaysSpaced(ws: seq<World>, steps: seq<Step>, floor: real, i: nat, j: nat)
    requires Run(ws, steps) && floor <= FLOOR && i < j < |ws|
    requires Fetches(steps[i]) && SavesFetch(steps[i]) && KeepsFloor(ws[i], steps[i], floor)
    requires forall k :: i < k < j ==> !Fetches(steps[k])
    ensures PlanSpaced(ws[j], floor) && ws[j].fetched == ws[i].fetched + [steps[i].f.now]
    decreases j
  {
    assert Enabled(ws[j - 1], steps[j - 1]) && ws[j] == Next(ws[j - 1], steps[j - 1]);
    if i < j - 1 {
      StaysSpaced(ws, steps, floor, i, j - 1);
    } else {
      RunKeepsInv(ws, steps, i);
      var f := steps[i].f;
      var p := InputFor(ws[i].row, f.active, Last(f).m, f.now);
      PlanBounds(p, f.now, f.rand);
      CadenceBounds(p);
      JitterBounds(Cadence(p), f.rand);
    }
  }

  /**
   * In any run, the next success after a saved one whose plan no reset pulled in
   * below the floor comes at least the floor later.
   */
  lemma GapAfterUnclamped(ws: seq<World>, steps: seq<Step>, floor: real, i: nat, j: nat)
    requires Run(ws, steps) && floor <= FLOOR && i < j < |steps|
    requires Fetches(steps[i]) && Fetches(steps[j]) && forall k :: i < k < j ==> !Fetches(steps[k])
    requires SavesFetch(steps[i]) && KeepsFloor(ws[i], steps[i], floor)
    ensures steps[j].f.now >= steps[i].f.now + floor
  {
    StaysSpaced(ws, steps, floor, i, j);
    DueIsPlanned(ws, steps, j);
  }

  /** The plan of a saved success stands until the next success. */
  lemma {:induction false} PlanStands(ws: seq<World>, steps: seq<Step>, i: nat, j: nat)
    requires Run(ws, steps) && i < j < |ws| && Fetches(steps[i]) && steps[i].f.saved
    requires forall k :: i < k < j ==> !Fetches(steps[k])
    ensures var f := steps[i].f;
      ws[j].row.Some? &&
      ws[j].row.value.nextPollAt == Some(NextPoll(InputFor(ws[i].row, f.active, Last(f).m, f.now), f.now, f.rand))
    decreases j
  {
    assert Enabled(ws[j - 1], steps[j - 1]) && ws[j] == Next(ws[j - 1], steps[j - 1]);
    if i < j - 1 {
      PlanStands(ws, steps, i, j - 1);
    }
  }

  /**
   * Slower after a rate limit: in any run, after a saved success within an hour
   * of a 429 (or of the end of the park it asked for), no collection starts for
   * 324 s, unless a reset pulls the plan in.
   */
  lemma GapAfter429(ws: seq<World>, steps: seq<Step>, i: nat, j: nat)
    requires Run(ws, steps) && i < j < |steps| && Fetches(steps[i]) && steps[i].f.saved && steps[j].Collect?
    requires forall k :: i < k < j ==> !Fetches(steps[k])
    requires Recent429(ws[i].row, steps[i].f.now) && KeepsFloor(ws[i], steps[i], 324.0)
    ensures steps[j].f.now >= steps[i].f.now + 324.0
  {
    var f := steps[i].f;
    var p := InputFor(ws[i].row, f.active, Last(f).m, f.now);
    RunKeepsInv(ws, steps, i);
    assert Enabled(ws[i], steps[i]);
    PacedAfter429(p);
    JitterTenth(Cadence(p), f.rand);
    PlanStands(ws, steps, i, j);
    DueIsPlanned(ws, steps, j);
  }

  /** What counts as within the window of a 429, over runs: an hour from it, at least. */
  lemma {:induction false} RecentFor(ws: seq<World>, steps: seq<Step>, i: nat, j: nat, now: real)
    requires Run(ws, steps) && i < j < |ws| && steps[i].Collect? && steps[i].f.saved && !Strikes(steps[i].f)
    requires Last(steps[i].f).Failed? && Last(steps[i].f).status == 429
    requires now < steps[i].f.now + 3600.0
    ensures Recent429(ws[j].row, now) && ws[j].row.value.last429At.value >= steps[i].f.now
    decreases j
  {
    assert Enabled(ws[j - 1], steps[j - 1]) && ws[j] == Next(ws[j - 1], steps[j - 1]);
    if i < j - 1 {
      RecentFor(ws, steps, i, j - 1, now);
      RunClocks(ws, steps, i, j - 1);
    }
  }

  lemma {:induction false} RunClocks(ws: seq<World>, steps: seq<Step>, i: nat, j: nat)
    requires Run(ws, steps) && i < j < |ws|
    ensures Time(steps[i]) <= ws[j].clock
    decreases j
  {
    assert Enabled(ws[j - 1], steps[j - 1]) && ws[j] == Next(ws[j - 1], steps[j - 1]);
    if i < j - 1 {
      RunClocks(ws, steps, i, j - 1);
    }
  }

  /** From state a to state b, every success was saved and made a plan that keeps the floor. */
  ghost predicate Unclamped(ws: seq<World>, steps: seq<Step>, floor: real, a: nat, b: nat)
    requires Run(ws, steps) && b <= |steps|
  {
    forall k :: a <= k < b ==> SavesFetch(steps[k]) && KeepsFloor(ws[k], steps[k], floor)
  }

  lemma SpacedAppend(ts: seq<real>, floor: real, t: real)
    requires Spaced(ts, floor) && (ts != [] ==> t >= ts[|ts| - 1] + floor)
    ensures Spaced(ts + [t], floor)
  {
    var us := ts + [t];
    forall i | 0 <= i < |us| - 1 ensures us[i + 1] >= us[i] + floor {
      assert i < |ts| - 1 ==> us[i + 1] == ts[i + 1];
    }
  }

  /** A collection of a planned row waits for the plan. */
  lemma DueIsPlanned(ws: seq<World>, steps: seq<Step>, i: nat)
    requires Run(ws, steps) && i < |steps| && steps[i].Collect?
    requires ws[i].row.Some? && ws[i].row.value.nextPollAt.Some?
    ensures steps[i].f.now >= ws[i].row.value.nextPollAt.value
  {
    RunKeepsInv(ws, steps, i);
    assert Enabled(ws[i], steps[i]);
    PlanNeverOverslept(ws, steps, i, steps[i].f.now);
  }

  /** The successes after the first n are spaced, and the plan keeps the floor from the last of them. */
  ghost predicate SpacedFrom(w: World, floor: real, n: nat) {
    n <= |w.fetched| && Spaced(w.fetched[n..], floor) && (n < |w.fetched| ==> PlanSpaced(w, floor))
  }

  lemma StepStaysSpaced(ws: seq<World>, steps: seq<Step>, floor: real, n: nat, b: nat)
    requires Run(ws, steps) && floor <= FLOOR && b < |steps|
    requires SavesFetch(steps[b]) && KeepsFloor(ws[b], steps[b], floor)
    requires SpacedFrom(ws[b], floor, n)
    ensures SpacedFrom(ws[b + 1], floor, n)
  {
    var w, s := ws[b], steps[b];
    assert Enabled(w, s) && ws[b + 1] == Next(w, s);
    if Fetches(s) {
      var made := w.fetched[n..];
      assert ws[b + 1].fetched[n..] == made + [s.f.now];
      StaysSpaced(ws, steps, floor, b, b + 1);
      if made != [] {
        DueIsPlanned(ws, steps, b);
        assert made[|made| - 1] == w.fetched[|w.fetched| - 1];
      }
      SpacedAppend(made, floor, s.f.now);
    }
  }

  /** Over such a stretch, whatever came before it, its successes are spaced by the floor. */
  lemma {:induction false} StretchSpaced(ws: seq<World>, steps: seq<Step>, floor: real, a: nat, b: nat)
    requires Run(ws, steps) && floor <= FLOOR && a <= b <= |steps| && Unclamped(ws, steps, floor, a, b)
    ensures SpacedFrom(ws[b], floor, |ws[a].fetched|)
    decreases b
  {
    if a < b {
      StretchSpaced(ws, steps, floor, a, b - 1);
      StepStaysSpaced(ws, steps, floor, |ws[a].fetched|, b - 1);
    }
  }

  lemma {:induction false} SpacedSpan(ts: seq<real>, floor: real, i: nat, j: nat)
    requires Spaced(ts, floor) && i <= j < |ts|
    ensures ts[j] - ts[i] >= floor * (j - i) as real
    decreases j
  {
    if i < j {
      SpacedSpan(ts, floor, i, j - 1);
      assert ts[j] >= ts[j - 1] + floor;
      assert floor * (j - i) as real == floor * (j - 1 - i) as real + floor;
    }
  }

  /**
   * Request budget: in any run, at most 27 successful fetches of a row fall in
   * an hour whose successes were saved, with plans no reset pulled in below the
   * floor. Nothing is assumed of the run before or after the stretch from state
   * a to state b, nor of the failures in it.
   */
  lemma AtMost27PerHour(ws: seq<World>, steps: seq<Step>, a: nat, b: nat, i: nat, j: nat)
    requires Run(ws, steps) && a <= b <= |steps| && Unclamped(ws, steps, FLOOR, a, b)
    requires |ws[a].fetched| <= i <= j < |ws[b].fetched|
    requires ws[b].fetched[j] - ws[b].fetched[i] <= 3600.0
    ensures j - i + 1 <= 27
  {
    var n := |ws[a].fetched|;
    StretchSpaced(ws, steps, FLOOR, a, b);
    SpacedSpan(ws[b].fetched[n..], FLOOR, i - n, j - n);
  }

  /** The resets a reading names lie ahead; the collector looks for the earliest one only there. */
  predicate ResetsAhead(m: Reading, now: real) {
    && (m.earliestReset > 0 ==> m.earliestReset as real > now)
    && (m.exhausted && m.limitingReset > 0 ==> m.limitingReset as real > now)
  }

  /** With resets ahead over the stretch, clamps and all: a minute between successes, so at most 61 in an hour. */
  lemma AtMost61PerHour(ws: seq<World>, steps: seq<Step>, a: nat, b: nat, i: nat, j: nat)
    requires Run(ws, steps) && a <= b <= |steps|
    requires forall k :: a <= k < b && Fetches(steps[k]) ==>
      steps[k].f.saved && ResetsAhead(Last(steps[k].f).m, steps[k].f.now)
    requires |ws[a].fetched| <= i <= j < |ws[b].fetched|
    requires ws[b].fetched[j] - ws[b].fetched[i] <= 3600.0
    ensures j - i + 1 <= 61
  {
    var n := |ws[a].fetched|;
    assert Unclamped(ws, steps, RESET_SLACK, a, b);
    StretchSpaced(ws, steps, RESET_SLACK, a, b);
    SpacedSpan(ws[b].fetched[n..], RESET_SLACK, i - n, j - n);
  }

  /** The measurement a row holds is never older than a saved success. */
  lemma {:induction false} SavedStays(ws: seq<World>, steps: seq<Step>, i: nat, j: nat)
    requires Run(ws, steps) && i < j < |ws| && Fetches(steps[i]) && steps[i].f.saved
    ensures ws[j].row.Some? && ws[j].row.value.fetchedAt >= steps[i].f.now > 0.0
    decreases j
  {
    assert Enabled(ws[j - 1], steps[j - 1]) && ws[j] == Next(ws[j - 1], steps[j - 1]);
    RunKeepsInv(ws, steps, i);
    RunKeepsInv(ws, steps, j - 1);
    if i < j - 1 {
      SavedStays(ws, steps, i, j - 1);
    }
  }

  /** An inactive row is not collected within the serve TTL of a saved success, reset or not. */
  lemma InactiveKeepsTtl(ws: seq<World>, steps: seq<Step>, i: nat, j: nat)
    requires Run(ws, steps) && i < j < |steps|
    requires Fetches(steps[i]) && steps[i].f.saved && steps[j].Collect? && !steps[j].f.active
    ensures steps[j].f.now > steps[i].f.now + SERVE_TTL
  {
    SavedStays(ws, steps, i, j);
    assert Enabled(ws[j], steps[j]);
  }

  /**
   * When the next fetch may start, exactly: from the planned instant on, and
   * for an inactive row not within the serve TTL.
   */
  lemma NextFetchIff(r: Option<Row>, active: bool, m: Reading, fp: string, now: real, rand: real, t: real)
    requires Unit(rand) && 0.0 < now <= t
    requires 0.0 <= InputFor(r, active, m, now).previous <= POST_429_MAX
    ensures MayFetch(Some(Persisted(r, active, m, now, rand)), active, fp, t) <==>
      t >= NextPoll(InputFor(r, active, m, now), now, rand) && (active || t > now + SERVE_TTL)
  {
    PlanBounds(InputFor(r, active, m, now), now, rand);
    assert !Overslept(Persisted(r, active, m, now, rand), t);
  }

  /**
   * So the active row has no floor of its own: it is due the moment it is
   * planned exactly when it is exhausted and the reset that would end that is a
   * minute past. (The earliest reset is always looked for ahead.)
   */
  lemma DueAtOnceIff(r: Option<Row>, m: Reading, fp: string, now: real, rand: real)
    requires Unit(rand) && now > 0.0
    requires 0.0 <= InputFor(r, true, m, now).previous <= POST_429_MAX
    requires m.earliestReset > 0 ==> m.earliestReset as real > now
    ensures MayFetch(Some(Persisted(r, true, m, now, rand)), true, fp, now) <==>
      m.exhausted && m.limitingReset > 0 && m.limitingReset as real + RESET_SLACK <= now
  {
    var p := InputFor(r, true, m, now);
    NextFetchIff(r, true, m, fp, now, rand, now);
    CadenceBounds(p);
    JitterBounds(Cadence(p), rand);
  }

  const EXHAUSTED := Reading(None, Some(100.0), 95.0, true, 0, 1)
  const AGAIN := Collect(Fill(1000.0, true, false, true, "fp", Measured(EXHAUSTED), Nothing, 0.5, true))

  /**
   * Such rows are reachable, and nothing else bounds their rate: for every n
   * there is a run with n successful fetches of one row in one instant.
   */
  lemma {:induction false} NoBudgetPastReset(n: nat) returns (ws: seq<World>, steps: seq<Step>)
    ensures Run(ws, steps) && |steps| == n && ws[n].clock == 1000.0
    ensures |ws[n].fetched| == n && forall i :: 0 <= i < n ==> ws[n].fetched[i] == 1000.0
    ensures Enabled(ws[n], AGAIN)
  {
    if n == 0 {
      ws, steps := [World(None, 1000.0, [])], [];
    } else {
      ws, steps := NoBudgetPastReset(n - 1);
      RunKeepsInv(ws, steps, n - 1);
      var w := ws[n - 1];
      DueAtOnceIff(w.row, EXHAUSTED, "fp", 1000.0, 0.5);
      ws, steps := ws + [Next(w, AGAIN)], steps + [AGAIN];
    }
  }

  // --- backoff --------------------------------------------------------------

  lemma {:induction false} Pow2Monotone(a: nat, b: nat)
    requires a <= b
    ensures 1.0 <= Pow2(a) <= Pow2(b)
    decreases b
  {
    if a < b {
      Pow2Monotone(a, b - 1);
    } else if a > 0 {
      Pow2Monotone(a - 1, a - 1);
    }
  }

  /** Without Retry-After the backoff never falls as failures go on, and stays in [30, 600]. */
  lemma BackoffGrows(a: nat, b: nat, rateLimited: bool)
    requires 1 <= a <= b
    ensures 30.0 <= FailureBackoff(a, 0.0, rateLimited) <= FailureBackoff(b, 0.0, rateLimited) <= 600.0
  {
    Pow2Monotone(if a - 1 < 32 then a - 1 else 32, if b - 1 < 32 then b - 1 else 32);
  }

  // --- deadlines ------------------------------------------------------------

  /** The instant before which a failed reply forbids the next request. */
  function Deadline(now: real, r: Reply): real
    requires r.Failed?
  {
    now + Min(r.retryAfter, if r.status == 429 then RETRY_AFTER_MAX else OTHER_MAX)
  }

  /** Request k of the collection failed. */
  predicate Fails(f: Fill, k: nat) {
    k < |Replies(f)| && Replies(f)[k].Failed?
  }

  /** Its failure, and with it the deadline, reaches the row. */
  predicate Recorded(f: Fill, k: nat) {
    f.saved && !Strikes(f) && k == |Replies(f)| - 1
  }

  /** Either the deadline has passed or the row is parked until after it. */
  ghost predicate Parked(w: World, deadline: real) {
    w.clock >= deadline || (w.row.Some? && w.row.value.backoffUntil.Some? && w.row.value.backoffUntil.value >= deadline)
  }

  lemma RecordedParks(w: World, f: Fill, k: nat)
    requires Enabled(w, Collect(f)) && Fails(f, k) && Recorded(f, k)
    ensures Parked(Next(w, Collect(f)), Deadline(f.now, Replies(f)[k]))
  {
  }

  lemma {:induction false} StaysParked(ws: seq<World>, steps: seq<Step>, i: nat, j: nat, deadline: real)
    requires Run(ws, steps) && i <= j < |ws| && Parked(ws[i], deadline)
    ensures Parked(ws[j], deadline)
    decreases j
  {
    if i < j {
      assert Enabled(ws[j - 1], steps[j - 1]) && ws[j] == Next(ws[j - 1], steps[j - 1]);
      StaysParked(ws, steps, i, j - 1, deadline);
    }
  }

  /**
   * Server deadlines are honoured over runs: no request of the row starts, ever
   * after a recorded failure with Retry-After r, before min(r, 4500) seconds for
   * a 429 and min(r, 3600) otherwise, whatever happens to the row in between.
   */
  lemma DeadlinesHonoured(ws: seq<World>, steps: seq<Step>, i: nat, k: nat, j: nat)
    requires Run(ws, steps) && i < j < |steps| && steps[i].Collect? && steps[j].Collect?
    requires Fails(steps[i].f, k) && Recorded(steps[i].f, k)
    ensures steps[j].f.now >= Deadline(steps[i].f.now, Replies(steps[i].f)[k])
  {
    assert Enabled(ws[i], steps[i]) && ws[i + 1] == Next(ws[i], steps[i]);
    RecordedParks(ws[i], steps[i].f, k);
    StaysParked(ws, steps, i + 1, j, Deadline(steps[i].f.now, Replies(steps[i].f)[k]));
    assert Enabled(ws[j], steps[j]);
  }

  /** A request may follow request k before its deadline: the retry in the same collection, or a later collection. */
  ghost predicate Breakable(w: World, f: Fill, k: nat)
    requires Fails(f, k)
  {
    || k + 1 < |Replies(f)|
    || exists g: Fill :: g.now < Deadline(f.now, Replies(f)[k]) && Enabled(Next(w, Collect(f)), Collect(g))
  }

  /**
   * Exactly when a deadline does not hold: a 401 that the same collection
   * retries after the gate returned a usable credential, one after which the
   * gate found the lineage dead (the strike is recorded instead, and binds that
   * credential only), or a failure whose record was not saved.
   */
  lemma BreakableIff(w: World, f: Fill, k: nat)
    requires w.clock > 0.0 && Enabled(w, Collect(f)) && Fails(f, k) && Replies(f)[k].retryAfter > 0.0
    ensures Breakable(w, f, k) <==> !Recorded(f, k)
  {
    if Recorded(f, k) {
      RecordedParks(w, f, k);
    } else if k + 1 == |Replies(f)| {
      var g := if f.saved then f.(fp := Other(f.gate.fp)) else f;
      if f.saved {
        UnstruckMayFetch(w.row, f, Other(f.gate.fp));
      }
      assert Enabled(Next(w, Collect(f)), Collect(g));
    }
  }

  function Other(fp: string): (o: string)
    ensures o != fp
  {
    fp + "'"
  }

  /** A strike parks nothing but the credential it names. */
  lemma UnstruckMayFetch(r: Option<Row>, f: Fill, fp: string)
    requires MayFetch(r, f.active, f.fp, f.now) && f.saved && Strikes(f) && f.gate.fp != "" && fp != f.gate.fp
    ensures MayFetch(Filled(r, f), f.active, fp, f.now)
  {
  }

  const START := World(None, 1000.0, [])

  /** A 401 that asks for a minute, and a gate that returns a credential at once. */
  const RETRIED := Fill(
    1000.0, false, false, true, "fp", Failed("http-401", 401, 60.0),
    Usable(Measured(Reading(None, Some(10.0), 95.0, false, 0, 0))), 0.5, true)

  lemma RetriedBeforeDeadline()
    ensures Enabled(START, Collect(RETRIED)) && |Replies(RETRIED)| == 2 && Fails(RETRIED, 0)
    ensures RETRIED.now < Deadline(RETRIED.now, Replies(RETRIED)[0]) == 1060.0
    ensures Next(START, Collect(RETRIED)).row.Some? && Next(START, Collect(RETRIED)).row.value.backoffUntil.None?
  {
  }

  const UNSAVED := Fill(
    1000.0, true, false, true, "fp", Failed("http-429", 429, 600.0), Nothing, 0.5, false)

  /** A rate limit whose record is lost is met again at once. */
  lemma UnsavedBeforeDeadline()
    ensures Enabled(START, Collect(UNSAVED)) && Deadline(UNSAVED.now, UNSAVED.first) == 1600.0
    ensures Enabled(Next(START, Collect(UNSAVED)), Collect(UNSAVED))
  {
  }

  // --- rows, call by call -----------------------------------------------------

  /** A plan is never later than a minute after the reset it waits for. */
  lemma ResetPullsIn(p: PlanInput, now: real, rand: real)
    ensures p.exhausted && p.limitingReset > 0 ==> NextPoll(p, now, rand) <= p.limitingReset as real + 60.0
    ensures !p.exhausted && p.earliestReset > 0 ==> NextPoll(p, now, rand) <= p.earliestReset as real + 60.0
    ensures NextPoll(p, now, rand) != now + Jittered(Cadence(p), rand) ==>
      || (p.exhausted && p.limitingReset > 0 && NextPoll(p, now, rand) == p.limitingReset as real + 60.0)
      || (!p.exhausted && p.earliestReset > 0 && NextPoll(p, now, rand) == p.earliestReset as real + 60.0)
  {
  }

  /** A parked row is not due, whatever its plan. */
  lemma ParkedIsNotDue(r: Row, now: real)
    requires r.fetchedAt != 0.0 && r.backoffUntil.Some? && now < r.backoffUntil.value
    ensures !PollDue(Some(r), now)
  {
  }

  /**
   * A plan ahead holds a row back exactly as far as the planner itself could have
   * put it, a tenth past the longer of its cadence and ten minutes, and a minute:
   * a plan beyond that is obsolete.
   */
  lemma PlanHoldsIff(r: Row, active: bool, fp: string, now: real)
    requires r.fetchedAt != 0.0 && r.strikes == 0 && r.backoffUntil.None? && r.interval.Some?
    requires r.nextPollAt.Some? && now < r.nextPollAt.value && now - r.fetchedAt > 180.0
    ensures MayFetch(Some(r), active, fp, now) <==>
      r.nextPollAt.value - now > 1.1 * (if r.interval.value > 600.0 then r.interval.value else 600.0) + 60.0
  {
  }

  /** Until it is healed, measured anew or struck for another credential, a struck credential is not collected. */
  lemma {:induction false} StruckIsLeft(ws: seq<World>, steps: seq<Step>, i: nat, j: nat, fp: string)
    requires Run(ws, steps) && i < j < |ws| && steps[i].AuthDead? && steps[i].fp == fp
    requires forall k :: i < k < j ==>
      && !steps[k].Heal? && (steps[k].AuthDead? ==> steps[k].fp == fp)
      && (steps[k].Collect? ==> !Strikes(steps[k].f) && !Succeeds(steps[k].f))
    ensures ws[j].row.Some? && ws[j].row.value.strikes >= 1 && ws[j].row.value.struck == fp
    ensures j < |steps| && steps[j].Collect? ==> fp != "" ==> steps[j].f.fp != fp
    decreases j
  {
    assert Enabled(ws[j - 1], steps[j - 1]) && ws[j] == Next(ws[j - 1], steps[j - 1]);
    if i < j - 1 {
      StruckIsLeft(ws, steps, i, j - 1, fp);
    }
    if j < |steps| {
      assert Enabled(ws[j], steps[j]);
    }
  }

  /** The window of a 429: an hour past the end of its park, until a success; then an hour past the 429 itself. */
  lemma RecentIff(r: Row, retryAfter: real, at: real, now: real, measured: real)
    requires retryAfter >= 0.0
    ensures var parked := AfterFailure(r, "http-429", true, retryAfter, at);
      && parked.backoffUntil.Some? && parked.backoffUntil.value >= at + 30.0
      && (Recent429(Some(parked), now) <==> now < parked.backoffUntil.value + 3600.0)
      && (Recent429(Some(AfterSuccess(parked, measured)), now) <==> now < at + 3600.0)
  {
    Pow2Monotone(0, if r.failures < 32 then r.failures else 32);
  }

  /**
   * How long a failure parks a row: the exponential of the failures in a row, or
   * what the server asks when that is longer, bounded by an hour, or by 75
   * minutes for a rate limit, whose longer asks get a quarter of an hour on top;
   * a rate limit without an ask parks for at least five minutes.
   */
  lemma BackoffMeaning(failures: nat, retryAfter: real, rateLimited: bool)
    requires failures >= 1 && retryAfter >= 0.0
    ensures var steps := if failures - 1 < 32 then failures - 1 else 32;
      var exponential := Min(30.0 * Pow2(steps), 600.0);
      var asked :=
        if retryAfter == 0.0 then (if rateLimited then 300.0 else 0.0)
        else if !rateLimited then Min(retryAfter, 3600.0)
        else Min(if retryAfter > 600.0 then retryAfter + 900.0 else retryAfter, 4500.0);
      var b := FailureBackoff(failures, retryAfter, rateLimited);
      b >= exponential && b >= asked && (b == exponential || b == asked)
  {
    Pow2Monotone(0, if failures - 1 < 32 then failures - 1 else 32);
  }

  /** Failures recorded since the last saved success. */
  function Streak(steps: seq<Step>): nat {
    if steps == [] then 0
    else
      var s := steps[|steps| - 1];
      var before := Streak(steps[..|steps| - 1]);
      if !s.Collect? || !s.f.saved || Strikes(s.f) then before
      else if Succeeds(s.f) then 0 else before + 1
  }

  /** Over any run the row counts exactly those. */
  lemma {:induction false} FailuresAreStreak(ws: seq<World>, steps: seq<Step>, i: nat)
    requires Run(ws, steps) && i < |ws|
    ensures RowOf(ws[i]).failures == Streak(steps[..i])
    decreases i
  {
    if i > 0 {
      FailuresAreStreak(ws, steps, i - 1);
      assert Enabled(ws[i - 1], steps[i - 1]) && ws[i] == Next(ws[i - 1], steps[i - 1]);
      assert steps[..i][..i - 1] == steps[..i - 1];
    }
  }

  /** A collection makes a second request, or strikes, only for an inactive account that no session owns. */
  lemma GateIsSpared(f: Fill)
    ensures |Replies(f)| == 2 <==>
      && f.first.Failed? && f.first.status == 401 && !f.active && !f.owned && f.refreshable && f.gate.Usable?
    ensures Strikes(f) <==>
      && f.first.Failed? && f.first.status == 401 && !f.active && !f.owned && f.refreshable && f.gate.Dead?
  {
  }

  /** Every recorded collection notes its time. */
  lemma AttemptIsNoted(w: World, f: Fill)
    requires f.saved
    ensures var r := Next(w, Collect(f)).row;
      r.Some? && r.value.lastAttemptAt == f.now
  {
  }

  /** A success plans from the row's own interval and the account's own pace. */
  lemma PlansFromItsRow(r: Row, active: bool, m: Reading, now: real, rand: real)
    requires r.interval.Some? && 150.0 <= r.interval.value <= 1800.0 && !m.exhausted && !Recent429(Some(r), now)
    requires m.prevPct.Some? && m.newPct.Some? && m.newPct.value == m.prevPct.value
    ensures Persisted(Some(r), active, m, now, rand).interval ==
      Some(Min(if active then 300.0 else 600.0, Max(180.0, 1.5 * r.interval.value)))
  {
  }
}
