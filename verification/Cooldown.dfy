// The shared auto-switch memory (internal/autoswitch/state.go) and the commit
// under the state lock (commitSwitch, cooldownRemaining and the quarantine
// updates of internal/autoswitch/engine.go).

module SwitchState {
  import opened Base
  import opened SwitchRules

  /** autoswitch_state.json; lastSwitchAt is 0 before any recorded switch. */
  datatype Record = Record(
    lastSwitchAt: real, lastSwitchTo: int, lastSwitchFrom: int, left: Option<Left>, quarantine: map<int, string>)

  /** What the last switch left behind, and why: headroom and the earliest reset ahead, where known. */
  datatype Left = Left(headroom: Option<real>, recoveryAt: Option<real>, trigger: Trigger)

  const FRESH := Record(0.0, 0, 0, None, map[])

  /** A missing or corrupt file loads as a fresh record. */
  function Load(file: Option<Record>): Record {
    match file
    case None => FRESH
    case Some(r) => r
  }

  /** Discretionary triggers, which honour the cooldown. */
  predicate ProactiveLike(t: Trigger) {
    t.Proactive? || t.SoonerReset? || t.LeastBad? || t.Projected? || t.Rebalance?
  }

  function CooldownRemaining(r: Record, cooldown: real, now: real): real {
    if r.lastSwitchAt == 0.0 then 0.0 else Max(cooldown - (now - r.lastSwitchAt), 0.0)
  }

  /** Whether a commit attempt over the loaded record goes ahead. */
  predicate Allowed(r: Record, t: Trigger, cooldown: real, now: real) {
    ProactiveLike(t) ==> CooldownRemaining(r, cooldown, now) <= 0.0
  }

  /** Forced switches never wait; the others until the cooldown since the last recorded switch has passed. */
  lemma AllowedIff(r: Record, t: Trigger, cooldown: real, now: real)
    ensures Allowed(r, t, cooldown, now) <==>
      t.AtLimit? || t.Failover? || r.lastSwitchAt == 0.0 || now - r.lastSwitchAt >= cooldown
  {
  }

  /** A missing or corrupt state file keeps nobody waiting. */
  lemma FreshNeverWaits(t: Trigger, cooldown: real, now: real)
    ensures Allowed(Load(None), t, cooldown, now)
  {
  }

  function Stamped(r: Record, left: Left, now: real, from: int, to: int): Record {
    r.(lastSwitchAt := now, lastSwitchTo := to, lastSwitchFrom := from, left := Some(left))
  }

  /** The state file, as one process works on it while holding the state lock. */
  class StateFile {
    var file: Option<Record>

    /** done: the switch went through; it is recorded only if the save succeeds. */
    method CommitSwitch(
      t: Trigger, cooldown: real, now: real, from: int, to: int, activeH: Option<real>, earliest: Option<real>,
      switches: bool, saves: bool)
      returns (done: bool)
      modifies this
      ensures done <==> Allowed(old(Load(file)), t, cooldown, now) && switches
      ensures file ==
        if done && saves then Some(Stamped(old(Load(file)), Left(activeH, earliest, t), now, from, to)) else old(file)
    {
      var st := Load(file);
      if ProactiveLike(t) {
        var rem := CooldownRemaining(st, cooldown, now);
        if rem > 0.0 {
          return false;
        }
      }
      if !switches {
        return false;
      }
      st := st.(lastSwitchAt := now);
      st := st.(lastSwitchTo := to, lastSwitchFrom := from);
      st := st.(left := Some(Left(activeH, earliest, t)));
      if saves {
        file := Some(st);
      }
      done := true;
    }

    /** mutateState with a function that replaces the quarantine map, or reports no change. */
    method MutateQuarantine(quarantine: map<int, string>, changed: bool, saves: bool)
      modifies this
      ensures file ==
        if changed && saves then Some(old(Load(file)).(quarantine := quarantine)) else old(file)
    {
      var st := Load(file);
      if !changed {
        return;
      }
      st := st.(quarantine := quarantine);
      if saves {
        file := Some(st);
      }
    }
  }
}

/**
 * Any number of engines over one state file, each load, check and save a step
 * of its own: the lock, not the steps' size, is what keeps them apart.
 */
module Cooldown {
  import opened Base
  import opened SwitchRules
  import opened SwitchState

  type Pid = int

  /** A process between taking the state lock and releasing it; copy is what it loaded. */
  datatype Phase =
    | Locked
    | Committing(copy: Record, now: real, trigger: Trigger, cooldown: real)
    | Switched(copy: Record, now: real, trigger: Trigger, cooldown: real)
    | Mutating(copy: Record)

  /** A completed switch; recorded when its save succeeded. */
  datatype Commit = Commit(
    at: real, trigger: Trigger, cooldown: real, recorded: bool, from: int, to: int, activeH: Option<real>, earliest: Option<real>)

  datatype World = World(
    file: Option<Record>, holder: Option<Pid>, procs: map<Pid, Phase>, clock: real, commits: seq<Commit>)

  datatype Step =
    | Advance(time: real)
    | Acquire(pid: Pid)
    | LoadToCommit(pid: Pid, trigger: Trigger, cooldown: real)
    | LoadToMutate(pid: Pid)
    | TrySwitch(pid: Pid, switches: bool)
    | SaveCommit(pid: Pid, from: int, to: int, activeH: Option<real>, earliest: Option<real>, saves: bool)
    | SaveMutation(pid: Pid, quarantine: map<int, string>, changed: bool, saves: bool)
    | GiveUp(pid: Pid)

  ghost predicate Enabled(w: World, s: Step) {
    match s
    case Advance(time) => time >= w.clock
    case Acquire(pid) => w.holder.None? && pid !in w.procs
    case LoadToCommit(pid, _, _) => pid in w.procs && w.procs[pid].Locked?
    case LoadToMutate(pid) => pid in w.procs && w.procs[pid].Locked?
    case TrySwitch(pid, _) => pid in w.procs && w.procs[pid].Committing?
    case SaveCommit(pid, _, _, _, _, _) => pid in w.procs && w.procs[pid].Switched?
    case SaveMutation(pid, _, _, _) => pid in w.procs && w.procs[pid].Mutating?
    case GiveUp(pid) => pid in w.procs && !w.procs[pid].Switched?
  }

  function Release(w: World, pid: Pid): World {
    w.(holder := None, procs := w.procs - {pid})
  }

  ghost function Next(w: World, s: Step): World
    requires Enabled(w, s)
  {
    match s
    case Advance(time) => w.(clock := time)
    case Acquire(pid) => w.(holder := Some(pid), procs := w.procs[pid := Locked])
    case LoadToCommit(pid, trigger, cooldown) =>
      w.(procs := w.procs[pid := Committing(Load(w.file), w.clock, trigger, cooldown)])
    case LoadToMutate(pid) => w.(procs := w.procs[pid := Mutating(Load(w.file))])
    case TrySwitch(pid, switches) =>
      var Committing(copy, now, trigger, cooldown) := w.procs[pid];
      if Allowed(copy, trigger, cooldown, now) && switches
      then w.(procs := w.procs[pid := Switched(copy, now, trigger, cooldown)])
      else Release(w, pid)
    case SaveCommit(pid, from, to, activeH, earliest, saves) =>
      var Switched(copy, now, trigger, cooldown) := w.procs[pid];
      Release(w.(file := if saves then Some(Stamped(copy, Left(activeH, earliest, trigger), now, from, to)) else w.file,
                 commits := w.commits + [Commit(now, trigger, cooldown, saves, from, to, activeH, earliest)]), pid)
    case SaveMutation(pid, quarantine, changed, saves) =>
      var copy := w.procs[pid].copy;
      Release(w.(file := if changed && saves then Some(copy.(quarantine := quarantine)) else w.file), pid)
    case GiveUp(pid) => Release(w, pid)
  }

  /** Every discretionary commit keeps its own cooldown from every commit recorded before it. */
  ghost predicate Spaced(commits: seq<Commit>) {
    forall i, j :: 0 <= i < j < |commits| ==>
      (commits[i].recorded && !commits[j].trigger.AtLimit? && !commits[j].trigger.Failover?) ==>
      commits[j].at - commits[i].at >= commits[j].cooldown
  }

  /** The record bounds every recorded commit, and is 0 only when there is none. */
  ghost predicate Covers(r: Record, commits: seq<Commit>, clock: real) {
    && r.lastSwitchAt <= clock
    && forall i :: 0 <= i < |commits| && commits[i].recorded ==> 0.0 < commits[i].at <= r.lastSwitchAt
  }

  ghost predicate PhaseOk(w: World, p: Phase) {
    match p
    case Locked => true
    case Mutating(copy) => copy == Load(w.file)
    case Committing(copy, now, _, _) => copy == Load(w.file) && Load(w.file).lastSwitchAt <= now <= w.clock && 0.0 < now
    case Switched(copy, now, trigger, cooldown) =>
      && copy == Load(w.file) && Load(w.file).lastSwitchAt <= now <= w.clock && 0.0 < now
      && Allowed(copy, trigger, cooldown, now)
  }

  ghost predicate Inv(w: World) {
    && 0.0 < w.clock
    && (forall pid :: pid in w.procs ==> w.holder == Some(pid) && PhaseOk(w, w.procs[pid]))
    && Covers(Load(w.file), w.commits, w.clock)
    && Spaced(w.commits)
  }

  /** The last recorded commit, if any. */
  function LastRecorded(commits: seq<Commit>): Option<Commit> {
    if commits == [] then None
    else if commits[|commits| - 1].recorded then Some(commits[|commits| - 1])
    else LastRecorded(commits[..|commits| - 1])
  }

  /** The record tells of that commit: when, from and to which account, and what was left behind. */
  ghost predicate Tells(r: Record, commits: seq<Commit>) {
    LastRecorded(commits).Some? ==>
      var c := LastRecorded(commits).value;
      && r.lastSwitchAt == c.at && r.lastSwitchFrom == c.from && r.lastSwitchTo == c.to
      && r.left.Some? && r.left.value.trigger == c.trigger
      && r.left.value.headroom == c.activeH && r.left.value.recoveryAt == c.earliest
  }

  lemma StepTells(w: World, s: Step)
    requires Inv(w) && Tells(Load(w.file), w.commits) && Enabled(w, s)
    ensures Tells(Load(Next(w, s).file), Next(w, s).commits)
  {
    if s.SaveCommit? {
      assert PhaseOk(w, w.procs[s.pid]);
      var c := Next(w, s).commits;
      assert c[..|c| - 1] == w.commits;
    }
    if s.SaveMutation? {
      assert PhaseOk(w, w.procs[s.pid]);
    }
  }

  /** Over every interleaving the shared record is that of the last recorded commit. */
  lemma {:induction false} RecordTells(w: World, steps: seq<Step>)
    requires Inv(w) && Tells(Load(w.file), w.commits) && Legal(w, steps)
    ensures Tells(Load(After(w, steps).file), After(w, steps).commits)
    decreases |steps|
  {
    if steps != [] {
      StepTells(w, steps[0]);
      StepKeepsInv(w, steps[0]);
      RecordTells(Next(w, steps[0]), steps[1..]);
    }
  }

  ghost predicate Init(w: World) {
    && 0.0 < w.clock && w.procs == map[] && w.commits == []
    && Load(w.file).lastSwitchAt <= w.clock
  }

  lemma CommitKeepsSpaced(w: World, s: Step)
    requires Inv(w) && s.SaveCommit? && Enabled(w, s)
    ensures Spaced(Next(w, s).commits)
  {
    var c := Next(w, s).commits;
    assert PhaseOk(w, w.procs[s.pid]);
    var last := c[|w.commits|];
    forall i | 0 <= i < |w.commits| && w.commits[i].recorded
        && !last.trigger.AtLimit? && !last.trigger.Failover?
      ensures last.at - w.commits[i].at >= last.cooldown
    {
      assert 0.0 < w.commits[i].at <= Load(w.file).lastSwitchAt;
    }
  }

  lemma StepKeepsInv(w: World, s: Step)
    requires Inv(w) && Enabled(w, s)
    ensures Inv(Next(w, s))
  {
    var w' := Next(w, s);
    forall pid | pid in w'.procs ensures w'.holder == Some(pid) && PhaseOk(w', w'.procs[pid]) {
      assert pid in w.procs ==> PhaseOk(w, w.procs[pid]);
    }
    if s.SaveCommit? {
      CommitKeepsSpaced(w, s);
      assert PhaseOk(w, w.procs[s.pid]);
    }
    if s.SaveMutation? {
      assert PhaseOk(w, w.procs[s.pid]);
    }
  }

  ghost predicate Legal(w: World, steps: seq<Step>)
    decreases |steps|
  {
    steps == [] || (Enabled(w, steps[0]) && Legal(Next(w, steps[0]), steps[1..]))
  }

  ghost function After(w: World, steps: seq<Step>): World
    requires Legal(w, steps)
    decreases |steps|
  {
    if steps == [] then w else After(Next(w, steps[0]), steps[1..])
  }

  lemma {:induction false} RunKeepsInv(w: World, steps: seq<Step>)
    requires Inv(w) && Legal(w, steps)
    ensures Inv(After(w, steps))
    decreases |steps|
  {
    if steps != [] {
      StepKeepsInv(w, steps[0]);
      RunKeepsInv(Next(w, steps[0]), steps[1..]);
    }
  }

  /**
   * Cooldown over all engines. In any interleaving of engines and quarantine
   * updates over one state file, on one monotone clock, a discretionary commit
   * comes at least its engine's cooldown after every commit recorded before it,
   * whatever the earlier trigger was.
   */
  lemma CooldownHolds(w: World, steps: seq<Step>)
    requires Init(w) && Legal(w, steps)
    ensures Spaced(After(w, steps).commits)
  {
    RunKeepsInv(w, steps);
  }

  /** A quarantine update never moves the cooldown: the record's switch fields survive it. */
  lemma MutationKeepsSwitchFields(w: World, steps: seq<Step>, s: Step)
    requires Init(w) && Legal(w, steps) && s.SaveMutation? && Enabled(After(w, steps), s)
    ensures var before := Load(After(w, steps).file);
      var after := Load(Next(After(w, steps), s).file);
      after == before.(quarantine := after.quarantine)
  {
    RunKeepsInv(w, steps);
    assert PhaseOk(After(w, steps), After(w, steps).procs[s.pid]);
  }
}
