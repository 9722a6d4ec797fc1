// Whole runs of the auto-switch loop over frozen readings: it cannot oscillate.

module SwitchRuns {
  import opened Base
  import opened Burn
  import opened SwitchRules
  import opened Ids

  /** One frozen set of readings, keyed by slot, and the clock it is read at. */
  datatype Scene = Scene(cfg: Config, snaps: map<int, Snapshot>, now: real)

  /** A decision-grade measurement was taken at some time. */
  ghost predicate Sound(sc: Scene) {
    && Normalized(sc.cfg)
    && (forall n :: n in sc.snaps ==> sc.snaps[n].slot == n)
    && (forall n :: n in sc.snaps && Headroom(sc.snaps[n]).Some? ==> sc.snaps[n].age.Some?)
  }

  /** What one engine carries from tick to tick, and which account is live. */
  datatype State = State(active: int, unhealthy: int, track: Track)

  /** The trigger one tick decides on, with the state it leaves if nothing is committed. */
  function Ticked(sc: Scene, s: State): (Decision, State)
    requires s.active in sc.snaps
  {
    var active := sc.snaps[s.active];
    var (projected, track) := Project(sc.cfg, s.track, active, sc.now);
    var (decision, unhealthy) := Decide(sc.cfg, s.unhealthy, Headroom(active), projected);
    (decision, State(s.active, unhealthy, track))
  }

  /** The other accounts a tick may look at: any of them may be quarantined, disabled or unusable. */
  ghost predicate Pool(sc: Scene, s: State, cands: seq<Snapshot>) {
    forall c :: c in cands ==> c.slot in sc.snaps && sc.snaps[c.slot] == c && c.slot != s.active
  }

  /**
   * One tick: nothing is committed (no trigger, cooldown, no target, a failed
   * refresh or switch), or any ranked candidate of any pool is, not only the first.
   */
  ghost predicate Tick(sc: Scene, s: State, s': State) {
    && s.active in sc.snaps
    && var (decision, idle) := Ticked(sc, s);
    || s' == idle
    || (decision.Act? && exists cands, c :: Pool(sc, s, cands) && Commits(sc, s, decision.trigger, idle, cands, c, s'))
  }

  ghost predicate Commits(
    sc: Scene, s: State, trigger: Trigger, idle: State, cands: seq<Snapshot>, c: Snapshot, s': State)
    requires s.active in sc.snaps
  {
    && c in Targets(sc.cfg, sc.now, trigger, sc.snaps[s.active], cands, []).1
    && s' == State(c.slot, 0, idle.track)
  }

  ghost predicate Run(sc: Scene, run: seq<State>) {
    && run != []
    && run[0].active in sc.snaps
    && forall i :: 0 <= i < |run| - 1 ==> Tick(sc, run[i], run[i + 1])
  }

  /** How many ticks of the run moved to another account. */
  ghost function Switches(run: seq<State>): nat {
    if |run| < 2 then 0
    else Switches(run[1..]) + (if run[0].active != run[1].active then 1 else 0)
  }

  // --- the order every committed switch climbs ------------------------------

  /** Unmeasured, then measured but past the threshold or exhausted, then healthy. */
  function Grade(sc: Scene, s: Snapshot): int {
    if Headroom(s).None? then 0 else if !Healthy(sc.cfg, s) then 1 else 2
  }

  /** Strictly higher: by grade, then headroom among the unhealthy, then reset or pace among the healthy. */
  ghost predicate Above(sc: Scene, b: Snapshot, a: Snapshot) {
    || Grade(sc, b) > Grade(sc, a)
    || (Grade(sc, b) == 1 == Grade(sc, a) && Headroom(b).value > Headroom(a).value)
    || (Grade(sc, b) == 2 == Grade(sc, a)
        && match sc.cfg.strategy
           case Best => false
           case ConsumeFirst => 0 != SevenDayReset(b) < SevenDayReset(a)
           case Balance =>
             Pace(b, sc.now).Some? && Pace(a, sc.now).Some? && Pace(b, sc.now).value > Pace(a, sc.now).value)
  }

  ghost predicate Climbs(sc: Scene, from: int, to: int) {
    from in sc.snaps && to in sc.snaps && Above(sc, sc.snaps[to], sc.snaps[from])
  }

  lemma ClimbsTransitive(sc: Scene, a: int, b: int, c: int)
    requires Climbs(sc, a, b) && Climbs(sc, b, c)
    ensures Climbs(sc, a, c)
  {
  }

  lemma RankedAdmitted(sc: Scene, trigger: Trigger, active: Snapshot, cands: seq<Snapshot>, c: Snapshot)
    requires c in Targets(sc.cfg, sc.now, trigger, active, cands, []).1
    ensures c in cands
    ensures (trigger.Proactive? && Headroom(active).Some? && Headroom(active).value > 0.0
             && Admits(LeastBadRule(sc.cfg, Headroom(active).value), c))
         || (RuleFor(sc.cfg, sc.now, trigger, active).Some?
             && Admits(RuleFor(sc.cfg, sc.now, trigger, active).value, c))
  {
    var rule := RuleFor(sc.cfg, sc.now, trigger, active);
    if rule.Some? {
      RankMeaning(rule.value, cands);
    }
    if Headroom(active).Some? {
      RankMeaning(LeastBadRule(sc.cfg, Headroom(active).value), cands);
    }
  }

  /** A switch no burn-rate projection asked for moves strictly up. */
  lemma SwitchClimbs(sc: Scene, s: State, cands: seq<Snapshot>, c: Snapshot)
    requires Sound(sc) && s.active in sc.snaps && Pool(sc, s, cands)
    requires Ticked(sc, s).0.Act? && !Ticked(sc, s).0.trigger.Projected?
    requires c in Targets(sc.cfg, sc.now, Ticked(sc, s).0.trigger, sc.snaps[s.active], cands, []).1
    ensures Climbs(sc, s.active, c.slot)
  {
    RankedAdmitted(sc, Ticked(sc, s).0.trigger, sc.snaps[s.active], cands, c);
  }

  // --- projections stop after the first switch ------------------------------

  /** The tracker knows, or at the next tick will know, one frozen measurement of the live account only. */
  ghost predicate Settled(sc: Scene, s: State) {
    && s.active in sc.snaps
    && (s.track.slot != s.active ==> Headroom(sc.snaps[s.active]).Some?)
    && (s.track.slot == s.active ==>
          && |s.track.samples| <= 1
          && forall x :: x in s.track.samples ==>
               sc.snaps[s.active].age.Some? && x.at == MeasuredAt(sc.snaps[s.active], sc.now))
  }

  lemma SettledNeverProjects(sc: Scene, s: State)
    requires Sound(sc) && Settled(sc, s)
    ensures var (decision, idle) := Ticked(sc, s);
      && (decision.Act? ==> !decision.trigger.Projected?)
      && Settled(sc, idle)
  {
    var active := sc.snaps[s.active];
    if Headroom(active).Some? && active.age.Some? {
      var util := 100.0 - Headroom(active).value;
      var at := MeasuredAt(active, sc.now);
      var kept := if s.active != s.track.slot then [] else s.track.samples;
      if kept == [] {
        assert Observed(s.track, s.active, at, util).samples == [Sample(at, util)];
      } else {
        assert kept[|kept| - 1] in s.track.samples;
      }
    }
  }

  /** After the tick the tracker follows the account that was live, so a new one starts settled. */
  lemma SwitchSettles(sc: Scene, s: State, s': State)
    requires Sound(sc) && Tick(sc, s, s') && s'.active != s.active
    requires Headroom(sc.snaps[s.active]).Some? || s.track.slot == s.active
    ensures Settled(sc, s')
  {
    var cands, c :| Pool(sc, s, cands) && Commits(sc, s, Ticked(sc, s).0.trigger, Ticked(sc, s).1, cands, c, s');
    RankedAdmitted(sc, Ticked(sc, s).0.trigger, sc.snaps[s.active], cands, c);
  }

  // --- counting -------------------------------------------------------------

  ghost function Higher(sc: Scene, slot: int): set<int> {
    set n | n in sc.snaps && Climbs(sc, slot, n)
  }

  lemma {:induction false} SubsetSmaller(a: set<int>, b: set<int>)
    requires a <= b
    ensures |a| <= |b|
  {
    EmptyOrHas(a);
    if a != {} {
      var x :| x in a;
      SubsetSmaller(a - {x}, b - {x});
    }
  }

  /** The live account is never above itself, so at most all the others are. */
  lemma HigherBounded(sc: Scene, slot: int)
    requires slot in sc.snaps
    ensures |Higher(sc, slot)| <= |sc.snaps| - 1
  {
    SubsetSmaller(Higher(sc, slot), sc.snaps.Keys - {slot});
  }

  lemma ClimbShrinks(sc: Scene, from: int, to: int)
    requires Climbs(sc, from, to)
    ensures |Higher(sc, to)| < |Higher(sc, from)|
  {
    forall n | n in Higher(sc, to) ensures n in Higher(sc, from) - {to} {
      ClimbsTransitive(sc, from, to, n);
    }
    assert to in Higher(sc, from);
    SubsetSmaller(Higher(sc, to), Higher(sc, from) - {to});
  }

  lemma TickMoves(sc: Scene, s: State, s': State)
    requires Sound(sc) && Tick(sc, s, s') && s'.active != s.active
    ensures s'.active in sc.snaps
    ensures var (decision, idle) := Ticked(sc, s);
      && decision.Act? && s'.track == idle.track
      && (decision.trigger.Projected? || Climbs(sc, s.active, s'.active))
  {
    var cands, c :| Pool(sc, s, cands) && Commits(sc, s, Ticked(sc, s).0.trigger, Ticked(sc, s).1, cands, c, s');
    RankedAdmitted(sc, Ticked(sc, s).0.trigger, sc.snaps[s.active], cands, c);
    if !Ticked(sc, s).0.trigger.Projected? {
      SwitchClimbs(sc, s, cands, c);
    }
  }

  lemma RunTail(sc: Scene, run: seq<State>)
    requires Sound(sc) && Run(sc, run) && |run| > 1
    ensures Tick(sc, run[0], run[1]) && Run(sc, run[1..])
  {
    assert Tick(sc, run[0], run[1]);
    if run[1].active != run[0].active {
      TickMoves(sc, run[0], run[1]);
    }
    forall i | 0 <= i < |run[1..]| - 1 ensures Tick(sc, run[1..][i], run[1..][i + 1]) {
      assert Tick(sc, run[i + 1], run[i + 2]);
    }
  }

  /** From a settled state every switch climbs, so there are at most as many as accounts above. */
  lemma {:induction false} SettledRunSwitches(sc: Scene, run: seq<State>)
    requires Sound(sc) && Run(sc, run) && Settled(sc, run[0])
    ensures Switches(run) <= |Higher(sc, run[0].active)| <= |sc.snaps| - 1
    decreases |run|
  {
    HigherBounded(sc, run[0].active);
    if |run| > 1 {
      RunTail(sc, run);
      SettledNeverProjects(sc, run[0]);
      if run[1].active != run[0].active {
        TickMoves(sc, run[0], run[1]);
        ClimbShrinks(sc, run[0].active, run[1].active);
        SwitchSettles(sc, run[0], run[1]);
      }
      SettledRunSwitches(sc, run[1..]);
    }
  }

  /**
   * No oscillation: with frozen readings and clock, any normalized
   * configuration and strategy, any candidate pools and any ranked candidate
   * taken each time, a run of ticks of any length commits fewer than twice as
   * many switches as there are accounts. The factor two pays for one
   * burn-rate projection made from measurements older than the freeze.
   */
  lemma FrozenReadingsSettle(sc: Scene, run: seq<State>)
    requires Sound(sc) && Run(sc, run)
    ensures Switches(run) <= 2 * |sc.snaps| - 1
  {
    HigherBounded(sc, run[0].active);
    RunSwitches(sc, run);
  }

  lemma {:induction false} RunSwitches(sc: Scene, run: seq<State>)
    requires Sound(sc) && Run(sc, run)
    ensures Switches(run) <= |Higher(sc, run[0].active)| + |sc.snaps|
    decreases |run|
  {
    if |run| > 1 {
      RunTail(sc, run);
      if run[1].active == run[0].active {
        RunSwitches(sc, run[1..]);
      } else {
        TickMoves(sc, run[0], run[1]);
        if Ticked(sc, run[0]).0.trigger.Projected? {
          SwitchSettles(sc, run[0], run[1]);
          SettledRunSwitches(sc, run[1..]);
        } else {
          ClimbShrinks(sc, run[0].active, run[1].active);
          RunSwitches(sc, run[1..]);
        }
      }
    }
  }

  // --- least-bad moves ------------------------------------------------------

  /** A least-bad move off left onto entered is undone once entered has come down to burned. */
  ghost predicate Returns(c: Config, left: Snapshot, entered: Snapshot, burned: Snapshot) {
    entered in LeastBadFor(c, left, [entered]) && left in LeastBadFor(c, burned, [left])
  }

  /** What a least-bad move demands for a given headroom of the account left. */
  function Margin(c: Config, h: real): real {
    Min(c.hysteresis, h / 2.0)
  }

  lemma ReturnsIff(c: Config, left: Snapshot, entered: Snapshot, burned: Snapshot)
    requires Headroom(left).Some? && Headroom(entered).Some? && Headroom(burned).Some?
    ensures var (l, e, b) := (Headroom(left).value, Headroom(entered).value, Headroom(burned).value);
      Returns(c, left, entered, burned) <==> 0.0 < b < l < e && e - l >= Margin(c, l) && l - b >= Margin(c, b)
  {
    RankMeaning(LeastBadRule(c, Headroom(left).value), [entered]);
    RankMeaning(LeastBadRule(c, Headroom(burned).value), [left]);
  }

  /**
   * A least-bad move is undone by another only after the new account burned
   * both margins: the one it was entered with and the one it is left with. This
   * needs nothing frozen but the headroom of the account left behind.
   */
  lemma LeastBadReturnBurnsBothMargins(c: Config, left: Snapshot, entered: Snapshot, burned: Snapshot)
    requires Headroom(left).Some? && Headroom(entered).Some? && Headroom(burned).Some?
    requires Returns(c, left, entered, burned)
    ensures Headroom(entered).value - Headroom(burned).value
         >= Margin(c, Headroom(left).value) + Margin(c, Headroom(burned).value)
    ensures Headroom(entered).value > Headroom(left).value > Headroom(burned).value > 0.0
  {
    ReturnsIff(c, left, entered, burned);
  }

  /**
   * The comment's "twice the margin" is too strong, exactly here: some account
   * can be entered and left again after burning less than twice the entry
   * margin when what the old account is ahead by, in the end, is between the
   * two margins.
   */
  lemma UnderTwiceTheMarginIff(c: Config, left: Snapshot, burned: Snapshot)
    requires Normalized(c) && Headroom(left).Some? && Headroom(burned).Some?
    ensures var (l, b) := (Headroom(left).value, Headroom(burned).value);
      (exists entered :: Headroom(entered).Some? && Returns(c, left, entered, burned)
         && Headroom(entered).value - b < 2.0 * Margin(c, l))
      <==> 0.0 < b < l && Margin(c, b) <= l - b < Margin(c, l)
  {
    var l, b := Headroom(left).value, Headroom(burned).value;
    if 0.0 < b < l && Margin(c, b) <= l - b < Margin(c, l) {
      var entered := At(2, 100.0 - l - Margin(c, l));
      assert Headroom(entered) == Some(l + Margin(c, l));
      ReturnsIff(c, left, entered, burned);
    }
    forall entered | Headroom(entered).Some? && Returns(c, left, entered, burned)
         && Headroom(entered).value - b < 2.0 * Margin(c, l)
      ensures 0.0 < b < l && Margin(c, b) <= l - b < Margin(c, l)
    {
      ReturnsIff(c, left, entered, burned);
    }
  }

  function At(slot: int, pct: real): Snapshot {
    Snapshot(slot, Some([Window("7d", pct, 0)]), Some(0.0), 0.0, Ok, false)
  }

  /** Readings that meet the condition. */
  lemma LeastBadReturnBelowTwiceTheMargin()
    ensures var c := Config(95.0, 50.0, 60.0, 3, Best);
      && Returns(c, At(1, 90.0), At(2, 85.0), At(2, 93.5))
      && Headroom(At(2, 85.0)).value - Headroom(At(2, 93.5)).value < 2.0 * Margin(c, Headroom(At(1, 90.0)).value)
  {
    ReturnsIff(Config(95.0, 50.0, 60.0, 3, Best), At(1, 90.0), At(2, 85.0), At(2, 93.5));
  }

  // --- changing readings ----------------------------------------------------

  /** The count of unmeasured ticks after a run of ticks that committed nothing. */
  function Unmeasured(c: Config, start: int, readings: seq<(Option<real>, bool)>): int
    decreases |readings|
  {
    if readings == [] then start
    else
      var (h, projected) := readings[|readings| - 1];
      Decide(c, Unmeasured(c, start, readings[..|readings| - 1]), h, projected).1
  }

  /** How many ticks at the end of the run had no measurement of the live account. */
  function Blind(readings: seq<(Option<real>, bool)>): (n: nat)
    ensures n <= |readings|
    ensures forall i :: |readings| - n <= i < |readings| ==> readings[i].0.None?
    ensures n < |readings| ==> readings[|readings| - n - 1].0.Some?
    decreases |readings|
  {
    if readings == [] || readings[|readings| - 1].0.Some? then 0
    else 1 + Blind(readings[..|readings| - 1])
  }

  lemma {:induction false} UnmeasuredCountsBlind(c: Config, readings: seq<(Option<real>, bool)>)
    ensures Unmeasured(c, 0, readings) == Blind(readings)
    decreases |readings|
  {
    if readings != [] {
      UnmeasuredCountsBlind(c, readings[..|readings| - 1]);
    }
  }

  /**
   * Failover, from an engine that just started or switched, is asked for on a
   * tick exactly when that tick and enough before it in a row had no
   * measurement; one measurement in between starts the count again.
   */
  lemma FailoverIff(c: Config, readings: seq<(Option<real>, bool)>, h: Option<real>, projected: bool)
    requires Normalized(c)
    ensures var decision := Decide(c, Unmeasured(c, 0, readings), h, projected).0;
      decision == Act(Failover) <==>
        && h.None? && |readings| + 1 >= c.unhealthyTicks
        && forall i :: |readings| + 1 - c.unhealthyTicks <= i < |readings| ==> readings[i].0.None?
  {
    UnmeasuredCountsBlind(c, readings);
  }

  lemma RankedIsSafe(c: Config, now: real, trigger: Trigger, active: Snapshot, cands: seq<Snapshot>, t: Snapshot)
    requires t in RankFor(c, now, trigger, active, cands)
    ensures t in cands && Headroom(t).Some? && Headroom(t).value > 0.0
    ensures !trigger.AtLimit? && !trigger.Failover? ==> Healthy(c, t)
  {
    RankMeaning(RuleFor(c, now, trigger, active).value, cands);
  }

  /**
   * No switch walks into trouble. A target is measured with headroom left, or
   * is an API key when nothing measured ranked and the tick was not merely
   * discretionary; a switch away from a usable account goes to a healthy one,
   * or, as a least-bad move, to one with strictly more headroom.
   */
  lemma TargetsAreSafe(
    c: Config, now: real, trigger: Trigger, active: Snapshot, cands: seq<Snapshot>, api: seq<Snapshot>, t: Snapshot)
    requires !trigger.LeastBad? && t in Targets(c, now, trigger, active, cands, api).1
    ensures var (kind, _) := Targets(c, now, trigger, active, cands, api);
      || (t in api && !trigger.SoonerReset? && !trigger.Rebalance? && RankFor(c, now, trigger, active, cands) == [])
      || (&& t in cands && Headroom(t).Some? && Headroom(t).value > 0.0
          && (kind.LeastBad? ==>
                trigger.Proactive? && Headroom(active).Some? && Headroom(t).value > Headroom(active).value > 0.0)
          && (!kind.LeastBad? && !kind.AtLimit? && !kind.Failover? ==> Healthy(c, t)))
  {
    if t in RankFor(c, now, trigger, active, cands) {
      RankedIsSafe(c, now, trigger, active, cands, t);
    }
    if Headroom(active).Some? {
      RankMeaning(LeastBadRule(c, Headroom(active).value), cands);
    }
  }

  /**
   * A forced move is never refused while something can take it: past the limit
   * or unmeasurable, there is no target exactly when no candidate is measured
   * with headroom left and there is no API key.
   */
  lemma StrandedIff(
    c: Config, now: real, trigger: Trigger, active: Snapshot, cands: seq<Snapshot>, api: seq<Snapshot>)
    requires trigger.AtLimit? || trigger.Failover?
    ensures Targets(c, now, trigger, active, cands, api).1 == [] <==>
      api == [] && forall s :: s in cands ==> Headroom(s).None? || Headroom(s).value <= 0.0
  {
    RankMeaning(Usable, cands);
    var ranked := Rank(Usable, cands);
    if ranked != [] {
      assert ranked[0] in cands && Admits(Usable, ranked[0]);
    }
    forall s | s in cands && Admits(Usable, s) ensures ranked != [] {
      assert s in ranked;
    }
  }

  /**
   * Past the threshold with headroom left and no target under the strategy
   * Best: nobody is healthy and ahead by the hysteresis, nobody is clearly
   * better, and there is no API key.
   */
  lemma BlockedIff(c: Config, now: real, active: Snapshot, cands: seq<Snapshot>, api: seq<Snapshot>)
    requires c.strategy.Best? && Headroom(active).Some? && Headroom(active).value > 0.0
    ensures Targets(c, now, Proactive, active, cands, api).1 == [] <==>
      && api == []
      && forall s :: s in cands && Headroom(s).Some? && Headroom(s).value > 0.0 ==>
           var gain := Headroom(s).value - Headroom(active).value;
           && !(Healthy(c, s) && gain >= c.hysteresis)
           && !(gain > 0.0 && gain >= Min(c.hysteresis, Headroom(active).value / 2.0))
  {
    var better := BeatsBy(c.threshold, Headroom(active), c.hysteresis);
    var clear := LeastBadRule(c, Headroom(active).value);
    RankMeaning(better, cands);
    RankMeaning(clear, cands);
    forall r | r == better || r == clear
      ensures Rank(r, cands) == [] <==> forall s :: s in cands ==> !Admits(r, s)
    {
      if Rank(r, cands) != [] {
        assert Rank(r, cands)[0] in cands;
      }
    }
  }

  // --- what a measured tick asks for, and gets --------------------------------

  /**
   * What a tick on a measured account asks for, by the percentage used. It starts
   * the count of unmeasured ticks again.
   */
  lemma DecisionByUse(c: Config, unhealthy: int, used: real, projected: bool)
    ensures var (d, count) := Decide(c, unhealthy, Some(100.0 - used), projected);
      && count == 0
      && (d.NoAction? <==> used < c.threshold && !projected && c.strategy.Best?)
      && (d == Act(Projected) <==> used < c.threshold && projected)
      && (d == Act(SoonerReset) <==> used < c.threshold && !projected && c.strategy.ConsumeFirst?)
      && (d == Act(Rebalance) <==> used < c.threshold && !projected && c.strategy.Balance?)
      && (d == Act(Proactive) <==> c.threshold <= used < 100.0)
      && (d == Act(AtLimit) <==> used >= c.threshold && used >= 100.0)
  {
  }

  /** Clearly better than an account with headroom h: some headroom, and ahead by the margin. */
  predicate ClearlyAhead(c: Config, s: Snapshot, h: real) {
    && Headroom(s).Some? && Headroom(s).value > 0.0
    && Headroom(s).value > h && Headroom(s).value - h >= Margin(c, h)
  }

  /**
   * The loop does not stay on a full account. A tick on an account past the
   * threshold acts; at the limit it has a target whenever any candidate has
   * headroom, and the first has the most of all; short of it, whenever some
   * candidate is clearly better, or under Best healthy and ahead by the
   * hysteresis.
   */
  lemma PastThresholdMoves(sc: Scene, s: State, cands: seq<Snapshot>, api: seq<Snapshot>)
    requires s.active in sc.snaps && Headroom(sc.snaps[s.active]).Some?
    requires 100.0 - Headroom(sc.snaps[s.active]).value >= sc.cfg.threshold
    ensures var active := sc.snaps[s.active];
      var h := Headroom(active).value;
      var decision := Ticked(sc, s).0;
      && decision == Act(if h > 0.0 then Proactive else AtLimit)
      && var ts := Targets(sc.cfg, sc.now, decision.trigger, active, cands, api).1;
         && (forall t :: t in cands && (
               || (h <= 0.0 && Headroom(t).Some? && Headroom(t).value > 0.0)
               || (h > 0.0 && ClearlyAhead(sc.cfg, t, h))
               || (h > 0.0 && sc.cfg.strategy.Best? && Healthy(sc.cfg, t) && Headroom(t).value - h >= sc.cfg.hysteresis))
               ==> ts != [])
         && (h <= 0.0 ==> forall t :: t in cands && Headroom(t).Some? && Headroom(t).value > 0.0 ==>
               Headroom(ts[0]).Some? && Headroom(ts[0]).value >= Headroom(t).value)
  {
    var active := sc.snaps[s.active];
    var h := Headroom(active).value;
    RankMeaning(Usable, cands);
    RankMeaning(LeastBadRule(sc.cfg, h), cands);
    RankMeaning(BeatsBy(sc.cfg.threshold, Some(h), sc.cfg.hysteresis), cands);
    if h <= 0.0 {
      forall t | t in cands && Headroom(t).Some? && Headroom(t).value > 0.0
        ensures Rank(Usable, cands) != [] && Headroom(Rank(Usable, cands)[0]).Some?
        ensures Headroom(Rank(Usable, cands)[0]).value >= Headroom(t).value
      {
        var ts := Rank(Usable, cands);
        assert t in ts;
        var k :| 0 <= k < |ts| && ts[k] == t;
        assert ts[0] in ts;
        if k > 0 {
          RankedByHeadroom(Usable, cands, 0, k);
        }
      }
    }
  }

  /** Rankings by headroom put the most first, and the lower slot among equals. */
  lemma RankedByHeadroom(r: Rule, cands: seq<Snapshot>, i: nat, j: nat)
    requires r.Usable? || r.BeatsBy? || r.ClearlyBetter?
    requires i < j < |Rank(r, cands)|
    ensures var (a, b) := (Rank(r, cands)[i], Rank(r, cands)[j]);
      && Headroom(a).Some? && Headroom(b).Some?
      && (Headroom(a).value > Headroom(b).value || (Headroom(a).value == Headroom(b).value && a.slot <= b.slot))
  {
    RankMeaning(r, cands);
    var ts := Rank(r, cands);
    assert ts[i] in ts && ts[j] in ts;
    assert !Better(r, ts[j], ts[i]);
  }

  lemma RankedByReset(r: Rule, cands: seq<Snapshot>, i: nat, j: nat)
    requires r.ResetsBefore? && i < j < |Rank(r, cands)|
    ensures var (a, b) := (Rank(r, cands)[i], Rank(r, cands)[j]);
      SevenDayReset(a) < SevenDayReset(b) || (SevenDayReset(a) == SevenDayReset(b) && a.slot <= b.slot)
  {
    RankMeaning(r, cands);
    var ts := Rank(r, cands);
    assert !Better(r, ts[j], ts[i]);
  }

  lemma RankedByPace(r: Rule, now: real, cands: seq<Snapshot>, i: nat, j: nat)
    requires (r.Outpaces? || r.BeatsPaced?) && r.now == now && i < j < |Rank(r, cands)|
    ensures var (a, b) := (Rank(r, cands)[i], Rank(r, cands)[j]);
      && Pace(a, now).Some? && Pace(b, now).Some?
      && (Pace(a, now).value > Pace(b, now).value || (Pace(a, now).value == Pace(b, now).value && a.slot <= b.slot))
  {
    RankMeaning(r, cands);
    var ts := Rank(r, cands);
    assert ts[i] in ts && ts[j] in ts;
    assert !Better(r, ts[j], ts[i]);
  }

  /**
   * Targets come best first. Among measured ones that is by headroom for forced
   * and least-bad moves and under Best, by the soonest weekly reset under
   * consume-first, and by the highest weekly pace under balance; equals by slot.
   */
  lemma TargetsInOrder(
    c: Config, now: real, trigger: Trigger, active: Snapshot, cands: seq<Snapshot>, api: seq<Snapshot>, i: nat, j: nat)
    requires !trigger.LeastBad? && (forall t :: t in cands ==> t !in api)
    requires var ts := Targets(c, now, trigger, active, cands, api).1; i < j < |ts| && ts[i] in cands
    ensures var (kind, ts) := Targets(c, now, trigger, active, cands, api);
      var (a, b) := (ts[i], ts[j]);
      if kind.LeastBad? || trigger.AtLimit? || trigger.Failover? || c.strategy.Best? then
        && Headroom(a).Some? && Headroom(b).Some?
        && (Headroom(a).value > Headroom(b).value || (Headroom(a).value == Headroom(b).value && a.slot <= b.slot))
      else if c.strategy.ConsumeFirst? then
        SevenDayReset(a) < SevenDayReset(b) || (SevenDayReset(a) == SevenDayReset(b) && a.slot <= b.slot)
      else
        && Pace(a, now).Some? && Pace(b, now).Some?
        && (Pace(a, now).value > Pace(b, now).value || (Pace(a, now).value == Pace(b, now).value && a.slot <= b.slot))
  {
    var (kind, ts) := Targets(c, now, trigger, active, cands, api);
    assert ts[i] in ts;
    if kind.LeastBad? {
      RankedByHeadroom(LeastBadRule(c, Headroom(active).value), cands, i, j);
    } else {
      var rule := RuleFor(c, now, trigger, active).value;
      if trigger.AtLimit? || trigger.Failover? || c.strategy.Best? {
        RankedByHeadroom(rule, cands, i, j);
      } else if c.strategy.ConsumeFirst? {
        RankedByReset(rule, cands, i, j);
      } else {
        RankedByPace(rule, now, cands, i, j);
      }
    }
  }

  /**
   * Who ranks, by strategy and trigger. Forced moves take anything with headroom.
   * Otherwise a target is healthy, and: under Best and under balance past the
   * threshold ahead of the active account by the hysteresis, as far as that is
   * measured; under consume-first it resets sooner; for a rebalance it has half as
   * much pace again. Balance ranks only accounts with a weekly pace.
   */
  lemma RankedIff(c: Config, now: real, trigger: Trigger, active: Snapshot, cands: seq<Snapshot>, t: Snapshot)
    ensures var h := Headroom(active);
      var ahead := Headroom(t).Some? && (h.Some? ==> Headroom(t).value - h.value >= c.hysteresis);
      t in RankFor(c, now, trigger, active, cands) <==>
        && t in cands && Headroom(t).Some? && Headroom(t).value > 0.0
        && (trigger.AtLimit? || trigger.Failover? ||
             (&& 100.0 - Headroom(t).value < c.threshold
              && match c.strategy
                 case Best => ahead
                 case ConsumeFirst =>
                   SevenDayReset(active) != 0 && SevenDayReset(t) != 0 && SevenDayReset(t) < SevenDayReset(active)
                 case Balance =>
                   && Pace(t, now).Some?
                   && if trigger.Rebalance?
                      then Pace(active, now).Some? && Pace(t, now).value > Pace(active, now).value
                           && Pace(t, now).value + 0.000000001 >= 1.5 * Pace(active, now).value
                      else ahead))
  {
    var rule := RuleFor(c, now, trigger, active);
    if rule.Some? {
      RankMeaning(rule.value, cands);
    }
  }
}
