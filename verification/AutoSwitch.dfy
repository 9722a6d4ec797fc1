// The auto-switch decision (internal/autoswitch/engine.go and balance.go):
// which trigger a tick acts on and which accounts it may move to. Times are
// epoch seconds, percentages are real.

module SwitchRules {
  import opened Base
  import opened Burn

  datatype Strategy = Best | ConsumeFirst | Balance

  datatype Trigger =
    | Proactive
    | AtLimit
    | Failover
    | SoonerReset  // the consume-first trigger
    | Rebalance    // the balance trigger
    | LeastBad
    | Projected

  datatype Config = Config(threshold: real, hysteresis: real, interval: real, unhealthyTicks: int, strategy: Strategy)

  predicate Normalized(c: Config) {
    && 50.0 <= c.threshold <= 99.9 && 0.0 <= c.hysteresis <= 50.0
    && 15.0 <= c.interval <= 3600.0 && 1 <= c.unhealthyTicks <= 100
  }

  /** resetsAt is 0 when unknown. */
  datatype Window = Window(name: string, pct: real, resetsAt: int)

  datatype Status = Ok | ApiKey | ReloginRequired | NoCredentials | KeychainUnavailable | OtherStatus

  /** windows are the relevant ones, None without a decision-grade measurement; age None is never measured. */
  datatype Snapshot = Snapshot(
    slot: int, windows: Option<seq<Window>>, age: Option<real>, nextPollAt: real, status: Status, disabled: bool)

  function MaxPct(ws: seq<Window>): real
    requires ws != []
  {
    if |ws| == 1 then ws[0].pct
    else
      var m := MaxPct(ws[..|ws| - 1]);
      if ws[|ws| - 1].pct > m then ws[|ws| - 1].pct else m
  }

  function Headroom(s: Snapshot): Option<real> {
    if s.windows.None? || s.windows.value == [] then None else Some(100.0 - MaxPct(s.windows.value))
  }

  function SevenDay(ws: seq<Window>): int {
    if ws == [] then 0 else if ws[0].name == "7d" then ws[0].resetsAt else SevenDay(ws[1..])
  }

  function SevenDayReset(s: Snapshot): int {
    if s.windows.None? then 0 else SevenDay(s.windows.value)
  }

  /** The fullest weekly window, the first of them when several are. */
  function Binding(ws: seq<Window>): Option<Window> {
    if ws == [] then None
    else
      var w := ws[|ws| - 1];
      var b := Binding(ws[..|ws| - 1]);
      if w.name != "5h" && (b.None? || w.pct > b.value.pct) then Some(w) else b
  }

  const WEEK_HOURS := 168.0
  const BALANCE_RATIO := 1.5
  const EPSILON := 0.000000001

  function HoursLeft(resetsAt: int, now: real): (h: real)
    ensures 1.0 <= h <= WEEK_HOURS
  {
    if resetsAt > 0 then Min(Max((resetsAt - now.Floor) as real / 3600.0, 1.0), WEEK_HOURS) else WEEK_HOURS
  }

  /** Weekly headroom per remaining hour. */
  function PaceOf(windows: Option<seq<Window>>, now: real): Option<real> {
    if windows.None? || Binding(windows.value).None? then None
    else
      var b := Binding(windows.value).value;
      Some(Max(100.0 - b.pct, 0.0) / HoursLeft(b.resetsAt, now))
  }

  function Pace(s: Snapshot, now: real): Option<real> {
    PaceOf(s.windows, now)
  }

  // --- admission ------------------------------------------------------------

  /** Measured, not exhausted, and below the threshold. */
  predicate Healthy(c: Config, s: Snapshot) {
    Headroom(s).Some? && Headroom(s).value > 0.0 && 100.0 - Headroom(s).value < c.threshold
  }

  /** Which candidates a ranking admits, and how it orders them. */
  datatype Rule =
    | Usable
    | BeatsBy(threshold: real, activeH: Option<real>, hysteresis: real)
    | ResetsBefore(threshold: real, activeReset: int)
    | Outpaces(threshold: real, now: real, activePace: real)
    | BeatsPaced(threshold: real, now: real, activeH: Option<real>, hysteresis: real)
    | ClearlyBetter(over: real, margin: real)

  predicate Below(threshold: real, s: Snapshot) {
    Headroom(s).Some? && Headroom(s).value > 0.0 && 100.0 - Headroom(s).value < threshold
  }

  predicate Gains(s: Snapshot, activeH: Option<real>, hysteresis: real) {
    Headroom(s).Some? && (activeH.Some? ==> Headroom(s).value - activeH.value >= hysteresis)
  }

  predicate Admits(r: Rule, s: Snapshot) {
    match r
    case Usable => Headroom(s).Some? && Headroom(s).value > 0.0
    case BeatsBy(t, activeH, hysteresis) => Below(t, s) && Gains(s, activeH, hysteresis)
    case ResetsBefore(t, activeReset) => Below(t, s) && SevenDayReset(s) != 0 && SevenDayReset(s) < activeReset
    case Outpaces(t, now, activePace) =>
      && Below(t, s) && Pace(s, now).Some?
      && Pace(s, now).value + EPSILON >= activePace * BALANCE_RATIO
      && Pace(s, now).value > activePace
    case BeatsPaced(t, now, activeH, hysteresis) => Below(t, s) && Pace(s, now).Some? && Gains(s, activeH, hysteresis)
    case ClearlyBetter(over, margin) =>
      && Headroom(s).Some? && Headroom(s).value > 0.0
      && Headroom(s).value - over > 0.0 && Headroom(s).value - over >= margin
  }

  function Filter(r: Rule, cands: seq<Snapshot>): seq<Snapshot> {
    if cands == [] then []
    else
      var rest := Filter(r, cands[..|cands| - 1]);
      if Admits(r, cands[|cands| - 1]) then rest + [cands[|cands| - 1]] else rest
  }

  lemma {:induction false} FilterMembers(r: Rule, cands: seq<Snapshot>)
    ensures forall s :: s in Filter(r, cands) <==> s in cands && Admits(r, s)
  {
    if cands != [] {
      FilterMembers(r, cands[..|cands| - 1]);
      assert cands == cands[..|cands| - 1] + [cands[|cands| - 1]];
    }
  }

  // --- order ----------------------------------------------------------------

  /** Ascending sort key: most headroom, soonest reset, or highest pace first. */
  function Key(r: Rule, s: Snapshot): real {
    match r
    case ResetsBefore(_, _) => SevenDayReset(s) as real
    case Outpaces(_, now, _) => if Pace(s, now).Some? then -Pace(s, now).value else 0.0
    case BeatsPaced(_, now, _, _) => if Pace(s, now).Some? then -Pace(s, now).value else 0.0
    case _ => if Headroom(s).Some? then -Headroom(s).value else 0.0
  }

  /** Strictly better; equal keys fall back to the lower slot. */
  predicate Better(r: Rule, a: Snapshot, b: Snapshot) {
    Key(r, a) < Key(r, b) || (Key(r, a) == Key(r, b) && a.slot < b.slot)
  }

  function Insert(r: Rule, s: Snapshot, sorted: seq<Snapshot>): seq<Snapshot> {
    if sorted == [] || !Better(r, sorted[0], s) then [s] + sorted
    else [sorted[0]] + Insert(r, s, sorted[1..])
  }

  /** The stable sort, as a specification. */
  function Sorted(r: Rule, cands: seq<Snapshot>): seq<Snapshot> {
    if cands == [] then [] else Insert(r, cands[0], Sorted(r, cands[1..]))
  }

  predicate Ordered(r: Rule, s: seq<Snapshot>) {
    forall i, j :: 0 <= i < j < |s| ==> !Better(r, s[j], s[i])
  }

  lemma NotBetterTransitive(r: Rule, a: Snapshot, b: Snapshot, c: Snapshot)
    requires !Better(r, b, a) && !Better(r, c, b)
    ensures !Better(r, c, a)
  {
  }

  lemma ConsOrdered(r: Rule, head: Snapshot, tail: seq<Snapshot>)
    requires Ordered(r, tail)
    requires tail != [] ==> !Better(r, tail[0], head)
    ensures Ordered(r, [head] + tail)
  {
    forall j | 0 <= j < |tail| ensures !Better(r, tail[j], head) {
      if j > 0 {
        NotBetterTransitive(r, head, tail[0], tail[j]);
      }
    }
    var all := [head] + tail;
    forall i, j | 0 <= i < j < |all| ensures !Better(r, all[j], all[i]) {
      assert all[j] == tail[j - 1];
      if i > 0 {
        assert all[i] == tail[i - 1];
      }
    }
  }

  lemma {:induction false} InsertOrders(r: Rule, s: Snapshot, sorted: seq<Snapshot>)
    requires Ordered(r, sorted)
    ensures var out := Insert(r, s, sorted);
      Ordered(r, out) && multiset(out) == multiset(sorted) + multiset{s}
    ensures var out := Insert(r, s, sorted);
      out != [] && (out[0] == s || (sorted != [] && out[0] == sorted[0]))
    decreases |sorted|
  {
    if sorted == [] || !Better(r, sorted[0], s) {
      ConsOrdered(r, s, sorted);
    } else {
      assert sorted == [sorted[0]] + sorted[1..];
      assert Ordered(r, sorted[1..]);
      InsertOrders(r, s, sorted[1..]);
      ConsOrdered(r, sorted[0], Insert(r, s, sorted[1..]));
    }
  }

  lemma {:induction false} SortedOrders(r: Rule, cands: seq<Snapshot>)
    ensures Ordered(r, Sorted(r, cands))
    ensures multiset(Sorted(r, cands)) == multiset(cands)
    decreases |cands|
  {
    if cands != [] {
      SortedOrders(r, cands[1..]);
      InsertOrders(r, cands[0], Sorted(r, cands[1..]));
      assert cands == [cands[0]] + cands[1..];
    }
  }

  function Rank(r: Rule, cands: seq<Snapshot>): seq<Snapshot> {
    Sorted(r, Filter(r, cands))
  }

  /** A ranking holds exactly the admitted candidates, no one before a better one. */
  lemma RankMeaning(r: Rule, cands: seq<Snapshot>)
    ensures forall s :: s in Rank(r, cands) <==> s in cands && Admits(r, s)
    ensures Ordered(r, Rank(r, cands))
  {
    FilterMembers(r, cands);
    SortedOrders(r, Filter(r, cands));
    forall s ensures s in Rank(r, cands) <==> s in Filter(r, cands) {
      assert s in multiset(Rank(r, cands)) <==> s in multiset(Filter(r, cands));
    }
  }

  // --- the decision ---------------------------------------------------------

  /** What rank uses for a trigger; None when the active account cannot be compared. */
  function RuleFor(c: Config, now: real, trigger: Trigger, active: Snapshot): Option<Rule> {
    if trigger.AtLimit? || trigger.Failover? then Some(Usable)
    else match c.strategy
      case Balance =>
        if !trigger.Rebalance? then Some(BeatsPaced(c.threshold, now, Headroom(active), c.hysteresis))
        else if Pace(active, now).None? then None
        else Some(Outpaces(c.threshold, now, Pace(active, now).value))
      case ConsumeFirst =>
        if SevenDayReset(active) == 0 then None else Some(ResetsBefore(c.threshold, SevenDayReset(active)))
      case Best => Some(BeatsBy(c.threshold, Headroom(active), c.hysteresis))
  }

  function RankFor(c: Config, now: real, trigger: Trigger, active: Snapshot, cands: seq<Snapshot>): seq<Snapshot> {
    match RuleFor(c, now, trigger, active)
    case None => []
    case Some(rule) => Rank(rule, cands)
  }

  function LeastBadRule(c: Config, activeH: real): Rule {
    ClearlyBetter(activeH, Min(c.hysteresis, activeH / 2.0))
  }

  function LeastBadFor(c: Config, active: Snapshot, cands: seq<Snapshot>): seq<Snapshot> {
    if Headroom(active).None? || Headroom(active).value <= 0.0 then []
    else Rank(LeastBadRule(c, Headroom(active).value), cands)
  }

  /** The trigger, perhaps re-classified, and the targets in order. */
  function Targets(
    c: Config, now: real, trigger: Trigger, active: Snapshot, cands: seq<Snapshot>, api: seq<Snapshot>)
    : (Trigger, seq<Snapshot>)
  {
    var ranked := RankFor(c, now, trigger, active, cands);
    var fallback := if ranked == [] && !trigger.SoonerReset? && !trigger.Rebalance? then api else ranked;
    if fallback == [] && trigger.Proactive? && LeastBadFor(c, active, cands) != []
    then (LeastBad, LeastBadFor(c, active, cands))
    else (trigger, fallback)
  }

  datatype Decision = NoAction | Act(trigger: Trigger)

  /** The trigger for this tick and the count of ticks without a measurement. */
  function Decide(c: Config, unhealthy: int, activeH: Option<real>, projected: bool): (Decision, int) {
    match activeH
    case None => (if unhealthy + 1 < c.unhealthyTicks then NoAction else Act(Failover), unhealthy + 1)
    case Some(h) =>
      if 100.0 - h < c.threshold then
        (if projected then Act(Projected)
         else match c.strategy
           case ConsumeFirst => Act(SoonerReset)
           case Balance => Act(Rebalance)
           case Best => NoAction, 0)
      else (if h <= 0.0 then Act(AtLimit) else Act(Proactive), 0)
  }

  const SERVE_TTL := 180.0

  function MeasuredAt(s: Snapshot, now: real): real
    requires s.age.Some?
  {
    now - s.age.value
  }

  /** Seconds until the engine acts on the next fresh measurement of the active account. */
  function Lookahead(c: Config, s: Snapshot, now: real): real
    requires s.age.Some?
  {
    var next := if s.nextPollAt == 0.0 then MeasuredAt(s, now) + SERVE_TTL else s.nextPollAt;
    Max(next - now, 0.0) + c.interval
  }

  /** Records the measurement; true when the burn rate carries the account past the threshold in time. */
  function Project(c: Config, t: Track, active: Snapshot, now: real): (bool, Track) {
    if Headroom(active).None? || active.age.None? then (false, t)
    else
      var util := 100.0 - Headroom(active).value;
      var t' := Observed(t, active.slot, MeasuredAt(active, now), util);
      var rate := Rate(t'.samples);
      (&& util < c.threshold && rate.Some? && rate.value > 0.0
       && util + rate.value * Lookahead(c, active, now) >= c.threshold, t')
  }

  predicate Candidate(s: Snapshot, activeSlot: int, quarantined: set<int>, switchable: set<int>) {
    && s.slot != activeSlot && !s.disabled && s.slot !in quarantined && s.slot in switchable
    && !s.status.ReloginRequired? && !s.status.NoCredentials? && !s.status.KeychainUnavailable?
  }

  /** The candidates of one kind, in the order collected. */
  function Pick(
    snaps: seq<Snapshot>, activeSlot: int, quarantined: set<int>, switchable: set<int>, apiKeys: bool): seq<Snapshot>
  {
    if snaps == [] then []
    else
      var rest := Pick(snaps[..|snaps| - 1], activeSlot, quarantined, switchable, apiKeys);
      var s := snaps[|snaps| - 1];
      if Candidate(s, activeSlot, quarantined, switchable) && s.status.ApiKey? == apiKeys then rest + [s] else rest
  }

  predicate BySlot(api: seq<Snapshot>) {
    forall i, j :: 0 <= i < j < |api| ==> api[i].slot <= api[j].slot
  }

  function Larger(a: int, b: int): int { if a >= b then a else b }

  function InsertSlot(api: seq<Snapshot>, s: Snapshot): seq<Snapshot> {
    if api == [] || api[|api| - 1].slot <= s.slot then api + [s]
    else InsertSlot(api[..|api| - 1], s) + [api[|api| - 1]]
  }

  lemma {:induction false} InsertAdds(api: seq<Snapshot>, s: Snapshot)
    ensures multiset(InsertSlot(api, s)) == multiset(api) + multiset{s}
  {
    if api != [] && api[|api| - 1].slot > s.slot {
      assert api == api[..|api| - 1] + [api[|api| - 1]];
      InsertAdds(api[..|api| - 1], s);
    }
  }

  /** Inserting keeps the order, and nothing inserted or there before exceeds a bound on both. */
  lemma {:induction false} InsertKeepsSlots(api: seq<Snapshot>, s: Snapshot, bound: int)
    requires BySlot(api) && s.slot <= bound && forall i :: 0 <= i < |api| ==> api[i].slot <= bound
    ensures BySlot(InsertSlot(api, s)) && forall i :: 0 <= i < |InsertSlot(api, s)| ==> InsertSlot(api, s)[i].slot <= bound
  {
    if api != [] && api[|api| - 1].slot > s.slot {
      InsertKeepsSlots(api[..|api| - 1], s, api[|api| - 1].slot);
    }
  }
}

module AutoSwitch {
  import opened Base
  import opened Burn
  import opened SwitchRules

  class Engine {
    const cfg: Config
    const burn: BurnTracker
    var unhealthy: int

    constructor (cfg: Config)
      ensures this.cfg == cfg && unhealthy == 0 && fresh(burn) && burn.Contents() == Track(0, [])
    {
      this.cfg := cfg;
      unhealthy := 0;
      burn := new BurnTracker();
    }

    method DecideTrigger(activeH: Option<real>, projected: bool) returns (d: Decision)
      modifies this`unhealthy
      ensures (d, unhealthy) == Decide(cfg, old(unhealthy), activeH, projected)
    {
      if activeH.None? {
        unhealthy := unhealthy + 1;
        return if unhealthy < cfg.unhealthyTicks then NoAction else Act(Failover);
      }
      unhealthy := 0;
      var util := 100.0 - activeH.value;
      if util < cfg.threshold {
        if projected {
          return Act(Projected);
        }
        match cfg.strategy
        case ConsumeFirst => return Act(SoonerReset);
        case Balance => return Act(Rebalance);
        case Best => return NoAction;
      }
      d := if activeH.value <= 0.0 then Act(AtLimit) else Act(Proactive);
    }

    method ProjectCrossing(active: Snapshot, now: real) returns (crosses: bool)
      modifies burn
      ensures (crosses, burn.Contents()) == Project(cfg, old(burn.Contents()), active, now)
    {
      var activeH := Headroom(active);
      if activeH.None? || active.age.None? {
        return false;
      }
      var util := 100.0 - activeH.value;
      burn.Observe(active.slot, MeasuredAt(active, now), util);
      if util >= cfg.threshold {
        return false;
      }
      var rate := Rate(burn.samples);
      if rate.None? || rate.value <= 0.0 {
        return false;
      }
      crosses := util + rate.value * Lookahead(cfg, active, now) >= cfg.threshold;
    }

    /** The append loop and the sort shared by every ranking. */
    method RankBy(rule: Rule, cands: seq<Snapshot>) returns (out: seq<Snapshot>)
      ensures out == SwitchRules.Rank(rule, cands)
    {
      out := [];
      for i := 0 to |cands|
        invariant out == Filter(rule, cands[..i])
      {
        assert cands[..i + 1][..i] == cands[..i];
        if Admits(rule, cands[i]) {
          out := out + [cands[i]];
        }
      }
      assert cands[..|cands|] == cands;
      out := Sort(rule, out);
    }

    method Sort(rule: Rule, cands: seq<Snapshot>) returns (out: seq<Snapshot>)
      ensures out == Sorted(rule, cands)
    {
      out := [];
      for i := |cands| downto 0
        invariant out == Sorted(rule, cands[i..])
      {
        assert cands[i..][1..] == cands[i + 1..];
        out := Insert(rule, cands[i], out);
      }
    }

    method Rank(trigger: Trigger, cands: seq<Snapshot>, active: Snapshot, now: real) returns (out: seq<Snapshot>)
      ensures out == RankFor(cfg, now, trigger, active, cands)
    {
      if trigger.AtLimit? || trigger.Failover? {
        out := RankBy(Usable, cands);
      } else if cfg.strategy.Balance? {
        out := RankBalance(trigger, cands, active, now);
      } else if cfg.strategy.ConsumeFirst? {
        var activeReset := SevenDayReset(active);
        if activeReset == 0 {
          return [];
        }
        out := RankBy(ResetsBefore(cfg.threshold, activeReset), cands);
      } else {
        out := RankBy(BeatsBy(cfg.threshold, Headroom(active), cfg.hysteresis), cands);
      }
    }

    method RankBalance(trigger: Trigger, cands: seq<Snapshot>, active: Snapshot, now: real) returns (out: seq<Snapshot>)
      requires cfg.strategy.Balance? && !trigger.AtLimit? && !trigger.Failover?
      ensures out == RankFor(cfg, now, trigger, active, cands)
    {
      if trigger.Rebalance? {
        var pace := WeeklyPace(active.windows, now);
        if pace.None? {
          return [];
        }
        out := RankBy(Outpaces(cfg.threshold, now, pace.value), cands);
      } else {
        out := RankBy(BeatsPaced(cfg.threshold, now, Headroom(active), cfg.hysteresis), cands);
      }
    }

    method LeastBad(cands: seq<Snapshot>, active: Snapshot) returns (out: seq<Snapshot>)
      ensures out == LeastBadFor(cfg, active, cands)
    {
      var activeH := Headroom(active);
      if activeH.None? || activeH.value <= 0.0 {
        return [];
      }
      out := RankBy(ClearlyBetter(activeH.value, Min(cfg.hysteresis, activeH.value / 2.0)), cands);
    }

    method SelectTargets(trigger: Trigger, cands: seq<Snapshot>, api: seq<Snapshot>, active: Snapshot, now: real)
      returns (t: Trigger, out: seq<Snapshot>)
      ensures (t, out) == Targets(cfg, now, trigger, active, cands, api)
    {
      t := trigger;
      out := Rank(trigger, cands, active, now);
      if out == [] && !trigger.SoonerReset? && !trigger.Rebalance? {
        out := api;
      }
      if out == [] && trigger.Proactive? {
        var lb := LeastBad(cands, active);
        if lb != [] {
          return SwitchRules.LeastBad, lb;
        }
      }
    }

    /** Splits the non-active accounts a tick may consider into OAuth ones and the API keys, by slot. */
    method Candidates(
      snaps: seq<Snapshot>, activeSlot: int, quarantined: set<int>, switchable: set<int>, includeApiKey: bool)
      returns (oauth: seq<Snapshot>, api: seq<Snapshot>)
      ensures oauth == Pick(snaps, activeSlot, quarantined, switchable, false)
      ensures multiset(api) == if includeApiKey
        then multiset(Pick(snaps, activeSlot, quarantined, switchable, true)) else multiset{}
      ensures BySlot(api)
    {
      oauth, api := [], [];
      for i := 0 to |snaps|
        invariant oauth == Pick(snaps[..i], activeSlot, quarantined, switchable, false)
        invariant multiset(api) == if includeApiKey
          then multiset(Pick(snaps[..i], activeSlot, quarantined, switchable, true)) else multiset{}
        invariant BySlot(api)
      {
        var s := snaps[i];
        assert snaps[..i + 1][..i] == snaps[..i];
        if Candidate(s, activeSlot, quarantined, switchable) {
          if !s.status.ApiKey? {
            oauth := oauth + [s];
          } else if includeApiKey {
            InsertAdds(api, s);
            InsertKeepsSlots(api, s, if api == [] then s.slot else Larger(api[|api| - 1].slot, s.slot));
            api := InsertSlot(api, s);
          }
        }
      }
      assert snaps[..|snaps|] == snaps;
    }
  }

  /** The binding weekly window found by one pass, then its pace. */
  method WeeklyPace(windows: Option<seq<Window>>, now: real) returns (pace: Option<real>)
    ensures pace == PaceOf(windows, now)
  {
    if windows.None? {
      return None;
    }
    var ws := windows.value;
    var binding := None;
    for i := 0 to |ws|
      invariant binding == Binding(ws[..i])
    {
      assert ws[..i + 1][..i] == ws[..i];
      if ws[i].name != "5h" && (binding.None? || ws[i].pct > binding.value.pct) {
        binding := Some(ws[i]);
      }
    }
    assert ws[..|ws|] == ws;
    if binding.None? {
      return None;
    }
    pace := Some(Max(100.0 - binding.value.pct, 0.0) / HoursLeft(binding.value.resetsAt, now));
  }

  /** The binding window is weekly and the fullest; none is found only when there is none. */
  lemma {:induction false} BindingIsFullest(ws: seq<Window>)
    ensures Binding(ws).None? <==> forall w :: w in ws ==> w.name == "5h"
    ensures Binding(ws).Some? ==>
      && Binding(ws).value in ws && Binding(ws).value.name != "5h"
      && forall w :: w in ws && w.name != "5h" ==> w.pct <= Binding(ws).value.pct
    decreases |ws|
  {
    if ws != [] {
      BindingIsFullest(ws[..|ws| - 1]);
      var last := ws[|ws| - 1];
      assert ws == ws[..|ws| - 1] + [last];
      assert last in ws;
    }
  }
}
