// Whole runs of switches, renewals and rotations.

module SwitchHistory {
  import opened Base
  import opened OAuth
  import opened GateSpec
  import opened BackupSpec
  import opened SwitchSpec
  import opened LiveLaws
  import opened SwitchLaws

  /**
   * A switch attempt by some process; the gate renewing a slot's stored login;
   * or Claude Code rotating the live tokens, in the item where there is one.
   */
  datatype Step =
    | Switch(target: Slot, force: bool, io: SwitchIO)
    | Renew(slot: Slot, cred: Cred)
    | RotateLive(refresh: string, access: string, expiresAt: int, toItem: bool)

  function Rewritten(m: Machine, c: Cred, toItem: bool): Machine {
    if m.keychain && (m.live.item.Some? || toItem)
    then m.(live := m.live.(item := Some(c)))
    else m.(live := m.live.(file := Holds(c)))
  }

  ghost function Next(m: Machine, s: Step): Machine {
    match s
    case Switch(target, force, io) => PerformSwitch(m, target, force, io).machine
    case Renew(slot, cred) => m.(backups := m.backups[slot := cred])
    case RotateLive(refresh, access, expiresAt, toItem) =>
      if Seen(m).Value? && Seen(m).value.Blob?
      then Rewritten(m, Seen(m).value.(refresh := refresh, access := access, expiresAt := expiresAt), toItem)
      else m
  }

  // --- machine state --------------------------------------------------------

  /** Logged in over OAuth as readers see it, with OAuth accounts stored. */
  ghost predicate OAuthOnly(m: Machine) {
    && Seen(m).Value? && Seen(m).value.Blob? && m.config.Parsed?
    && forall s :: s in m.backups ==> m.backups[s].Blob?
  }

  /** A switch sees the login, and what it or the gate brings is an OAuth credential. */
  predicate OAuthStep(m: Machine, s: Step) {
    match s
    case Switch(_, _, io) => SeesLogin(m, io) && (io.renewed.Some? ==> io.renewed.value.Blob?)
    case Renew(_, cred) => cred.Blob?
    case _ => true
  }

  lemma MergedShares(target: Cred, live: Cred)
    requires target.Blob? && live.Blob?
    ensures var c := MergeShared(target, Some(live));
      c.Blob? && Shared(c) == Shared(live) && Scoped(c) == Scoped(target)
  {
    var c := MergeShared(target, Some(live));
    assert Shared(c) == Shared(live);
    assert c.top - SHARED_KEYS == target.top - SHARED_KEYS;
  }

  lemma WriteShowsEither(t: Tier<Cred>, keychain: bool, pinned: bool, c: Cred, io: LiveIO)
    ensures var after := Shows(WriteLive(t, keychain, pinned, c, io).main, keychain);
      after == Value(c) || after == Shows(t, keychain)
  {
  }

  /** Whatever happens in the transaction, readers see the login it started from or the target's. */
  lemma ActivateShows(m: Machine, target: Slot, cred: Cred, live: Cred, cfg: Config, pinned: bool, io: SwitchIO)
    requires Seen(m) == Value(live)
    ensures var r := Activate(m, target, cred, Some(live), cfg, pinned, io).machine;
      Seen(r) == Value(live) || Seen(r) == Value(MergeShared(cred, Some(live)))
  {
    var w := WriteLive(m.live, m.keychain, pinned, MergeShared(cred, Some(live)), io.write);
    WriteShowsEither(m.live, m.keychain, pinned, MergeShared(cred, Some(live)), io.write);
    WriteShowsEither(w.main, m.keychain, w.pinned, live, io.undo);
    ActivateWrites(m, target, cred, Some(live), cfg, pinned, io);
  }

  /** Its config keys stay, whatever of the rollback fails. */
  lemma ActivateKeepsKeys(
    m: Machine, target: Slot, cred: Cred, live: Option<Cred>, cfg: Config, pinned: bool, io: SwitchIO)
    requires m.config.Parsed?
    ensures var r := Activate(m, target, cred, live, cfg, pinned, io).machine;
      r.config.Parsed? && Kept(r.config) == Kept(m.config)
  {
    var w := WriteLive(m.live, m.keychain, pinned, MergeShared(cred, live), io.write);
    var m1 := m.(live := w.main, config := ClearKey(m.config, io.write.clearKey));
    var spliced := Splice(m1.config, cfg, io.writeConfig);
    ClearKeeps(m.config, io.write.clearKey);
    if !w.ok {
      assert Activate(m, target, cred, live, cfg, pinned, io).machine.config == m.config;
    } else if spliced.None? {
      RollbackKeepsKeys(m1, live, m.config, w.pinned, false, io);
    } else {
      SpliceKeeps(m1.config, cfg, io.writeConfig);
      var m2 := m1.(config := spliced.value);
      RollbackKeepsKeys(m2, live, m.config, w.pinned, true, io);
      assert io.save ==> Activate(m, target, cred, live, cfg, pinned, io).machine.config == m2.config;
    }
  }

  lemma RollbackKeepsKeys(
    m: Machine, live: Option<Cred>, config: Config, pinned: bool, configWritten: bool, io: SwitchIO)
    requires m.config.Parsed? && config.Parsed? && Kept(config) == Kept(m.config)
    ensures var r := Rollback(m, live, config, pinned, configWritten, io);
      r.config.Parsed? && Kept(r.config) == Kept(m.config)
  {
    ClearKeeps(config, io.undo.clearKey);
    ClearKeeps(m.config, io.undo.clearKey);
  }

  lemma SwitchKeepsMachineState(m: Machine, target: Slot, force: bool, io: SwitchIO)
    requires OAuthOnly(m) && OAuthStep(m, Switch(target, force, io))
    ensures var r := PerformSwitch(m, target, force, io).machine;
      && Seen(r).Value? && Seen(r).value.Blob? && Shared(Seen(r).value) == Shared(Seen(m).value)
      && r.config.Parsed? && Kept(r.config) == Kept(m.config)
  {
    ReadsSeenIff(m, io);
    PrepareChangesOnlyCopies(m, target, force, io);
    var p := Prepare(m, target, force, io);
    if Material(m, target, io).Some? {
      var cred := Material(m, target, io).value;
      ActivateShows(p.machine, target, cred, Seen(m).value, m.configs[target], p.pinned, io);
      ActivateKeepsKeys(p.machine, target, cred, Some(Seen(m).value), m.configs[target], p.pinned, io);
      MergedShares(cred, Seen(m).value);
    }
  }

  lemma SwitchKeepsOAuth(m: Machine, target: Slot, force: bool, io: SwitchIO)
    requires OAuthOnly(m) && OAuthStep(m, Switch(target, force, io))
    ensures var r := PerformSwitch(m, target, force, io).machine;
      forall s :: s in r.backups ==> r.backups[s].Blob?
  {
    ReadsSeenIff(m, io);
    PreserveShape(m, Seen(m).value, io);
    SwitchKeepsCopies(m, target, force, io);
  }

  lemma StepKeepsMachineState(m: Machine, s: Step)
    requires OAuthOnly(m) && OAuthStep(m, s)
    ensures OAuthOnly(Next(m, s))
    ensures Shared(Seen(Next(m, s)).value) == Shared(Seen(m).value)
    ensures Kept(Next(m, s).config) == Kept(m.config)
  {
    if s.Switch? {
      SwitchKeepsMachineState(m, s.target, s.force, s.io);
      SwitchKeepsOAuth(m, s.target, s.force, s.io);
    }
  }

  ghost predicate OAuthRun(ms: seq<Machine>, steps: seq<Step>) {
    && |ms| == |steps| + 1 && OAuthOnly(ms[0])
    && forall i :: 0 <= i < |steps| ==> OAuthStep(ms[i], steps[i]) && ms[i + 1] == Next(ms[i], steps[i])
  }

  /**
   * Machine state survives any run of switches among OAuth accounts, failed and
   * forced ones, shadowed writes and failed rollbacks included: the shared
   * fields readers see and every config key but oauthAccount and primaryApiKey
   * never change, as long as each switch sees the login that readers see.
   */
  lemma {:induction false} MachineStateSurvives(ms: seq<Machine>, steps: seq<Step>, i: nat)
    requires OAuthRun(ms, steps) && i < |ms|
    ensures OAuthOnly(ms[i])
    ensures Shared(Seen(ms[i]).value) == Shared(Seen(ms[0]).value)
    ensures Kept(ms[i].config) == Kept(ms[0].config)
    decreases i
  {
    if i > 0 {
      MachineStateSurvives(ms, steps, i - 1);
      StepKeepsMachineState(ms[i - 1], steps[i - 1]);
    }
  }

  /** What readers see after a switch that gets to the live store, from its writes alone. */
  lemma GoneShows(m: Machine, target: Slot, force: bool, io: SwitchIO)
    requires Goes(m, target, force, io)
    ensures var r := PerformSwitch(m, target, force, io).machine;
      Seen(r) ==
        if PutsBack(m, target, force, io) && ShowsReturn(m, target, force, io) then LiveRead(m, io)
        else if ShowsTarget(m, target, force, io) then Value(Merged(m, target, io))
        else Seen(m)
  {
    OutcomeIff(m, target, force, io);
    PrepareChangesOnlyCopies(m, target, force, io);
    var p := Prepare(m, target, force, io);
    var w := Forward(m, target, force, io);
    var live := Login(LiveRead(m, io));
    ActivateWrites(p.machine, target, Material(m, target, io).value, live, m.configs[target], p.pinned, io);
    if w.ok {
      SuccessShowsIff(m.live, m.keychain, p.pinned, Merged(m, target, io), io.write);
    } else {
      FailureShowsIff(m.live, m.keychain, p.pinned, Merged(m, target, io), io.write);
    }
    if PutsBack(m, target, force, io) {
      if WriteLive(w.main, m.keychain, w.pinned, live.value, io.undo).ok {
        SuccessShowsIff(w.main, m.keychain, w.pinned, live.value, io.undo);
      } else {
        FailureShowsIff(w.main, m.keychain, w.pinned, live.value, io.undo);
      }
    }
  }

  /** So is the rollback's, afterwards. */
  ghost predicate ShowsReturn(m: Machine, target: Slot, force: bool, io: SwitchIO)
    requires Material(m, target, io).Some? && LiveRead(m, io).Value?
  {
    var w := Forward(m, target, force, io);
    var c := LiveRead(m, io).value;
    if WriteLive(w.main, m.keychain, w.pinned, c, io.undo).ok then !ShadowsReturn(m, target, force, io)
    else SlipsThrough(w.main, m.keychain, w.pinned, c, io.undo)
  }

  /** The forward write is what readers see, at first. */
  ghost predicate ShowsTarget(m: Machine, target: Slot, force: bool, io: SwitchIO)
    requires Material(m, target, io).Some?
  {
    if Forward(m, target, force, io).ok then !ShadowsTarget(m, target, force, io) else SlipsForward(m, target, force, io)
  }

  /**
   * Exactly when one switch changes the shared fields that readers see: when the
   * credential they then see has others than the one before. That is the login
   * the switch read, when it was put back, or the target's with that login's
   * shared fields, or with its own when the login read was no OAuth credential.
   */
  lemma SharedChangesIff(m: Machine, target: Slot, force: bool, io: SwitchIO)
    requires Seen(m).Value?
    ensures var r := PerformSwitch(m, target, force, io).machine;
      var live := LiveRead(m, io);
      && Seen(r).Value?
      && (Shared(Seen(r).value) != Shared(Seen(m).value) <==>
            && Goes(m, target, force, io)
            && if PutsBack(m, target, force, io) && ShowsReturn(m, target, force, io)
               then Shared(live.value) != Shared(Seen(m).value)
               else ShowsTarget(m, target, force, io)
                    && SharedSource(Material(m, target, io).value, live) != Shared(Seen(m).value))
  {
    if Goes(m, target, force, io) {
      GoneShows(m, target, force, io);
      MergedSource(Material(m, target, io).value, LiveRead(m, io));
    } else {
      OutcomeIff(m, target, force, io);
      PrepareChangesOnlyCopies(m, target, force, io);
    }
  }

  /** Where a merged credential's shared fields come from. */
  function SharedSource(target: Cred, live: Read<Cred>): Doc {
    if target.Blob? && live.Value? && live.value.Blob? then Shared(live.value) else Shared(target)
  }

  lemma MergedSource(target: Cred, live: Read<Cred>)
    ensures Shared(MergeShared(target, Login(live))) == SharedSource(target, live)
  {
    if target.Blob? && live.Value? && live.value.Blob? {
      MergedShares(target, live.value);
    }
  }

  /**
   * What readers see after a switch that reports success and leaves no shadow is
   * the target's stored account, with the machine's shared fields.
   */
  lemma SwitchedIsScoped(m: Machine, target: Slot, force: bool, io: SwitchIO)
    requires OAuthOnly(m) && OAuthStep(m, Switch(target, force, io))
    requires Goes(m, target, force, io) && Completes(m, target, force, io) && !ShadowsTarget(m, target, force, io)
    ensures var r := PerformSwitch(m, target, force, io).machine;
      && Seen(r).Value?
      && Scoped(Seen(r).value) == Scoped(Material(m, target, io).value)
      && Shared(Seen(r).value) == Shared(Seen(m).value)
  {
    ReadsSeenIff(m, io);
    GoneShows(m, target, force, io);
    MergedShares(Material(m, target, io).value, Seen(m).value);
  }

  // --- after a shadowed switch ----------------------------------------------

  ghost predicate NamesSlot(m: Machine, c: Config, s: Slot) {
    s in m.roster && Identity(c) == Some(m.roster[s])
  }

  lemma CurrentIsOutgoing(m: Machine, cur: Slot)
    requires DistinctIdentities(m) && NamesSlot(m, m.config, cur)
    ensures Outgoing(m) == Some(cur)
  {
    assert cur in m.roster && m.roster[cur] == Identity(m.config).value;
    var found := Find(m, Identity(m.config).value);
    var s := found.value;
    assert s in m.roster && m.roster[s] == m.roster[cur];
    assert s == cur;
  }

  /** After a success that leaves a shadow the config names the target, and readers see the login left. */
  lemma ShadowNamesTarget(m: Machine, target: Slot, force: bool, io: SwitchIO)
    requires DistinctIdentities(m) && m.config.Parsed?
    requires target in m.configs && NamesSlot(m, m.configs[target], target)
    requires Goes(m, target, force, io) && Completes(m, target, force, io) && ShadowsTarget(m, target, force, io)
    ensures var r := PerformSwitch(m, target, force, io).machine;
      && DistinctIdentities(r) && NamesSlot(r, r.config, target) && Outgoing(r) == Some(target)
      && Seen(r) == Seen(m)
  {
    GoneShows(m, target, force, io);
    CompletedNames(m, target, force, io);
    CurrentIsOutgoing(PerformSwitch(m, target, force, io).machine, target);
  }

  lemma CompletedNames(m: Machine, target: Slot, force: bool, io: SwitchIO)
    requires Goes(m, target, force, io) && Completes(m, target, force, io) && m.config.Parsed?
    ensures var r := PerformSwitch(m, target, force, io).machine;
      r.roster == m.roster && r.config.Parsed? && r.config.account == AccountOf(m.configs[target]) && r.config.account.Some?
  {
    PrepareChangesOnlyCopies(m, target, force, io);
    ClearKeeps(m.config, io.write.clearKey);
    SpliceKeeps(ClearKey(m.config, io.write.clearKey), m.configs[target], io.writeConfig);
  }

  /**
   * Exactly when the next switch, to whichever slot, then stores that login as
   * the target's backup: it reads it, and nothing but its own material or a
   * backup write that stores nothing keeps it from doing so.
   */
  lemma ShadowMisfilesIff(m: Machine, cur: Slot, target: Slot, force: bool, io: SwitchIO, c: Cred)
    requires DistinctIdentities(m) && NamesSlot(m, m.config, cur) && LiveRead(m, io) == Value(c)
    requires cur !in m.backups || m.backups[cur] != c
    ensures var r := PerformSwitch(m, target, force, io).machine;
      (cur in r.backups && r.backups[cur] == c) <==>
        && target in m.roster && (force || !AlreadyActive(m, target, io)) && io.configReadable
        && Material(m, target, io).Some? && Material(m, target, io) != Some(c)
        && !Wiped(c) && !io.backup.NotStored?
  {
    CurrentIsOutgoing(m, cur);
    StoredIff(m, target, force, io, c);
    var r := PerformSwitch(m, target, force, io).machine;
    assert cur in r.backups && r.backups[cur] == c ==> StoredAt(m, r, cur, c);
  }

  // --- conservation of the newest generation --------------------------------

  /** latest is the newest account-scoped credential of each slot, wherever it was made; cur is logged in. */
  datatype Books = Books(machine: Machine, latest: map<Slot, Cred>, cur: Slot)

  ghost predicate Balanced(b: Books) {
    var (m, cur) := (b.machine, b.cur);
    && OAuthOnly(m) && DistinctIdentities(m)
    && NamesSlot(m, m.config, cur)
    && (forall s :: s in m.configs ==> NamesSlot(m, m.configs[s], s))
    && cur in b.latest && Scoped(Seen(m).value) == b.latest[cur] && !Wiped(Seen(m).value)
    && (forall s :: s in m.backups && s != cur ==> s in b.latest && Scoped(m.backups[s]) == b.latest[s])
    && (forall s, t :: s in b.latest && t in b.latest && b.latest[s] == b.latest[t] ==> s == t)
    && (forall s :: s in b.latest ==> !Wiped(b.latest[s]))
  }

  /** New tokens, which no account holds. */
  ghost predicate NewTokens(b: Books, c: Cred) {
    && c.Blob? && !Wiped(c)
    && forall t :: t in b.latest && b.latest[t].Blob? ==> b.latest[t].refresh != c.refresh
  }

  /**
   * An unforced switch to another slot that sees the login, uses the stored
   * credential (renewed a moment ago, perhaps), and misleads no reader; a
   * renewal of a stored login; a rotation of the live one.
   */
  ghost predicate Allowed(b: Books, s: Step) {
    match s
    case Switch(target, force, io) =>
      && !force && target != b.cur && io.undoConfig && io.undo.file
      && (io.renewed.Some? ==> target in b.machine.backups && io.renewed.value == b.machine.backups[target])
      && SeesLogin(b.machine, io) && Honest(b.machine, target, false, io)
    case Renew(slot, cred) => slot != b.cur && slot in b.machine.backups && NewTokens(b, cred)
    case RotateLive(refresh, access, expiresAt, _) =>
      Seen(b.machine).Value? && NewTokens(b, Blob(refresh, access, expiresAt, map[], map[]))
  }

  ghost function AfterSwitch(b: Books, s: Step): Books
    requires s.Switch?
  {
    var r := PerformSwitch(b.machine, s.target, s.force, s.io);
    Books(r.machine, b.latest, if r.outcome.Switched? then s.target else b.cur)
  }

  ghost function Booked(b: Books, s: Step): Books
    requires s.RotateLive? ==> Seen(b.machine).Value?
  {
    var m := Next(b.machine, s);
    match s
    case Switch(_, _, _) => AfterSwitch(b, s)
    case Renew(slot, cred) => Books(m, b.latest[slot := Scoped(cred)], b.cur)
    case RotateLive(_, _, _, _) => Books(m, if Seen(m).Value? then b.latest[b.cur := Scoped(Seen(m).value)] else b.latest, b.cur)
  }

  /** What a preparation may have written: the named slot's two backups, and the unclaimed store. */
  ghost predicate OnlyCopiesOf(m: Machine, m': Machine, slot: Slot) {
    && m'.roster == m.roster
    && (forall t :: t in m'.configs ==> (t in m.configs && m'.configs[t] == m.configs[t]) || (t == slot && m'.configs[t] == m.config))
    && (forall t :: t in m'.backups && t != slot ==> t in m.backups && m'.backups[t] == m.backups[t])
  }

  lemma PreserveOnlyCopies(m: Machine, live: Cred, io: SwitchIO, slot: Slot)
    requires Outgoing(m) == Some(slot)
    ensures OnlyCopiesOf(m, Preserve(m, live, io).machine, slot)
  {
    PreserveShape(m, live, io);
  }

  /** The slots a switch writes a config backup for still name their own account. */
  lemma CopiesStayNamed(m: Machine, cur: Slot, target: Slot, force: bool, io: SwitchIO)
    requires DistinctIdentities(m) && NamesSlot(m, m.config, cur)
    requires forall t :: t in m.configs ==> NamesSlot(m, m.configs[t], t)
    ensures var m' := PerformSwitch(m, target, force, io).machine;
      && m'.roster == m.roster
      && (forall t :: t in m'.configs ==> NamesSlot(m', m'.configs[t], t))
      && (forall t :: t in m'.backups && t != cur ==> t in m.backups && m'.backups[t] == m.backups[t])
  {
    CurrentIsOutgoing(m, cur);
    if LiveRead(m, io).Value? {
      PreserveOnlyCopies(m, LiveRead(m, io).value, io, cur);
    }
    SwitchKeepsCopies(m, target, force, io);
  }

  /** After a completed switch away, the outgoing backup holds exactly what was live. */
  lemma KeepsOutgoing(m: Machine, cur: Slot, target: Slot, io: SwitchIO)
    requires DistinctIdentities(m) && NamesSlot(m, m.config, cur)
    requires LiveRead(m, io).Value? && !Wiped(LiveRead(m, io).value)
    requires Login(LiveRead(m, io)) != Material(m, target, io)
    requires PerformSwitch(m, target, false, io).outcome.Switched?
    ensures var r := PerformSwitch(m, target, false, io).machine;
      cur in r.backups && r.backups[cur] == LiveRead(m, io).value
  {
    CurrentIsOutgoing(m, cur);
    SwitchKeepsCopies(m, target, false, io);
  }

  lemma SwitchKeepsBalance(b: Books, s: Step)
    requires Balanced(b) && s.Switch? && Allowed(b, s)
    ensures Balanced(Booked(b, s))
  {
    var m := b.machine;
    var r := PerformSwitch(m, s.target, false, s.io);
    ReadsSeenIff(m, s.io);
    CurrentIsOutgoing(m, b.cur);
    AllOrNothing(m, s.target, false, s.io);
    SwitchKeepsMachineState(m, s.target, false, s.io);
    SwitchKeepsOAuth(m, s.target, false, s.io);
    CopiesStayNamed(m, b.cur, s.target, false, s.io);
    if r.outcome.Switched? {
      OutcomeIff(m, s.target, false, s.io);
      SwitchedIsScoped(m, s.target, false, s.io);
      assert Material(m, s.target, s.io) == Some(m.backups[s.target]);
      KeepsOutgoing(m, b.cur, s.target, s.io);
    } else {
      assert Seen(r.machine) == Seen(m);
    }
  }

  lemma RenewKeepsBalance(b: Books, s: Step)
    requires Balanced(b) && s.Renew? && Allowed(b, s)
    ensures Balanced(Booked(b, s))
  {
    assert Scoped(s.cred).Blob? && Scoped(s.cred).refresh == s.cred.refresh;
  }

  lemma RotationKeepsBalance(b: Books, s: Step)
    requires Balanced(b) && s.RotateLive? && Allowed(b, s)
    ensures Balanced(Booked(b, s))
  {
    var m := Next(b.machine, s);
    assert Scoped(Seen(m).value).Blob? && Scoped(Seen(m).value).refresh == s.refresh;
  }

  ghost predicate Run(bs: seq<Books>, steps: seq<Step>) {
    && |bs| == |steps| + 1
    && Balanced(bs[0])
    && forall i :: 0 <= i < |steps| ==> Allowed(bs[i], steps[i]) && bs[i + 1] == Booked(bs[i], steps[i])
  }

  /**
   * No rotated credential is lost. Over any run of unforced switches between
   * different slots, by processes that see the login and with no shadow left
   * behind, of renewals and of rotations, whatever else fails in them, readers
   * see the newest generation of the current account and every other account's
   * is its backup; so coming back to an account resumes exactly where its last
   * session left off.
   */
  lemma {:induction false} NewestGenerationKept(bs: seq<Books>, steps: seq<Step>, i: nat)
    requires Run(bs, steps) && i < |bs|
    ensures Balanced(bs[i])
    decreases i
  {
    if i > 0 {
      NewestGenerationKept(bs, steps, i - 1);
      var b, s := bs[i - 1], steps[i - 1];
      match s
      case Switch(_, _, _) => SwitchKeepsBalance(b, s);
      case Renew(_, _) => RenewKeepsBalance(b, s);
      case RotateLive(_, _, _, _) => RotationKeepsBalance(b, s);
    }
  }
}
