// Switches that do harm although they report success: to the account that is
// live already, past an item that stays in front, and by a process that does
// not see the login.

module SelfSwitch {
  import opened Base
  import opened OAuth
  import opened GateSpec
  import opened SwitchSpec
  import opened LiveLaws
  import opened SwitchLaws
  import opened SwitchHistory

  /** The guard before the locks lets an unforced switch through: it reads a login of another generation than stored. */
  predicate PassesGuard(m: Machine, cur: Slot, io: SwitchIO)
    requires cur in m.backups
  {
    var live := ReadActive(m.live, m.keychain, io.guardRead);
    live.Value? && !(io.targetReadable && Fingerprint(live.value) == Fingerprint(m.backups[cur]))
  }

  /** What a switch to the live slot needs to go through, by what is there and which calls succeed. */
  predicate SelfGoes(m: Machine, cur: Slot, force: bool, io: SwitchIO)
    requires cur in m.backups && Seen(m).Value?
  {
    var live, stored := Seen(m).value, m.backups[cur];
    var backsUp := live != stored && !NeedsNoBackup(m, cur, live, io);
    && (force || PassesGuard(m, cur, io))
    && io.targetReadable && io.configReadable && cur in m.configs && AccountOf(m.configs[cur]).Some?
    && (force || live == stored || ((backsUp ==> io.backup.Stored?) && io.backupConfig))
    && (io.write.file || (m.keychain && !io.pinned && !(backsUp && io.backupPins) && io.write.put.SetOk?))
    && io.writeConfig && io.save
  }

  ghost predicate AtHome(m: Machine, cur: Slot, io: SwitchIO) {
    && OAuthOnly(m) && DistinctIdentities(m) && NamesSlot(m, m.config, cur) && cur in m.backups
    && io.renewed.None? && SeesLogin(m, io) && io.undoConfig && io.undo.file
  }

  lemma SelfPrepares(m: Machine, cur: Slot, force: bool, io: SwitchIO)
    requires AtHome(m, cur, io) && Material(m, cur, io).Some? && io.configReadable
    ensures var p := Prepare(m, cur, force, io);
      var live, stored := Seen(m).value, m.backups[cur];
      var backsUp := live != stored && !NeedsNoBackup(m, cur, live, io);
      && (p.ok <==> force || live == stored || ((backsUp ==> io.backup.Stored?) && io.backupConfig))
      && p.pinned == (io.pinned || (backsUp && io.backupPins))
      && p.machine == m.(backups := p.machine.backups, configs := p.machine.configs, stash := p.machine.stash)
      && (p.ok && !force && !Wiped(live) && live != stored ==> cur in p.machine.backups && p.machine.backups[cur] == live)
  {
    ReadsSeenIff(m, io);
    CurrentIsOutgoing(m, cur);
    PrepareChangesOnlyCopies(m, cur, force, io);
  }

  lemma SelfSwitchIff(m: Machine, cur: Slot, force: bool, io: SwitchIO)
    requires AtHome(m, cur, io)
    ensures PerformSwitch(m, cur, force, io).outcome.Switched? <==> SelfGoes(m, cur, force, io)
  {
    ReadsSeenIff(m, io);
    CurrentIsOutgoing(m, cur);
    assert cur in m.roster && Find(m, Identity(m.config).value) == Some(cur);
    assert io.configReadable ==> (AlreadyActive(m, cur, io) <==> !PassesGuard(m, cur, io));
    if Material(m, cur, io).Some? && io.configReadable {
      SelfPrepares(m, cur, force, io);
    }
  }

  /**
   * A switch to the slot that is already live, forced or not, makes another
   * generation live exactly when the login rotated past the stored one and the
   * switch goes through. It is then the stored, older one that readers see; an
   * unforced switch has put the newest in the backup. Otherwise readers see
   * what they saw.
   */
  lemma SelfSwitchRegressesIff(m: Machine, cur: Slot, force: bool, io: SwitchIO)
    requires AtHome(m, cur, io) && Honest(m, cur, force, io) && Seen(m).value.refresh != ""
    ensures var live, stored := Seen(m).value, m.backups[cur];
      var r := PerformSwitch(m, cur, force, io).machine;
      && Seen(r).Value?
      && (Fingerprint(Seen(r).value) != Fingerprint(live) <==>
            Fingerprint(live) != Fingerprint(stored) && SelfGoes(m, cur, force, io))
      && (SelfGoes(m, cur, force, io) ==> Scoped(Seen(r).value) == Scoped(stored))
      && (!SelfGoes(m, cur, force, io) ==> Seen(r) == Seen(m))
      && (SelfGoes(m, cur, force, io) && !force && live != stored ==> cur in r.backups && r.backups[cur] == live)
  {
    ReadsSeenIff(m, io);
    SelfSwitchIff(m, cur, force, io);
    AllOrNothing(m, cur, force, io);
    if SelfGoes(m, cur, force, io) {
      OutcomeIff(m, cur, force, io);
      SwitchedIsScoped(m, cur, force, io);
      SelfPrepares(m, cur, force, io);
      SwitchKeepsCopies(m, cur, force, io);
    }
  }
}

module SwitchWitness {
  import opened Base
  import opened OAuth
  import opened GateSpec
  import opened BackupSpec
  import opened SwitchSpec
  import opened SwitchLaws
  import opened SwitchHistory

  const STORED := Blob("rt1", "at1", 100, map[], map[])
  const ROTATED := Blob("rt2", "at2", 200, map[], map[])
  const OTHER := Blob("rt3", "at3", 300, map[], map[])
  const THIRD := Blob("rt4", "at4", 400, map[], map[])

  function Home(who: string): Config {
    Parsed(Some(Account(who, "")), map[])
  }

  const WORKS := LiveIO(SetOk, true, true, true, true)

  const SMOOTH := SwitchIO(
    None, false, CLEAR_READ, CLEAR_READ, true, true, true, Stored, false, true, true, WORKS, true, true, true, WORKS)

  /** Three accounts, the first logged in and rotated past its backup, its login in the Keychain only. */
  const BEFORE := Machine(
    Tier(Missing, Some(ROTATED)), true, Home("me"), Some(1), map[1 := "me", 2 := "you", 3 := "they"], [1, 2, 3],
    map[1 := STORED, 2 := OTHER, 3 := THIRD], map[1 := Home("me"), 2 := Home("you"), 3 := Home("they")], [])

  lemma NothingShared(a: Cred, b: Cred)
    requires a.Blob? && b.Blob? && a.top == map[] && b.top == map[]
    ensures MergeShared(a, Some(b)) == a
  {
    assert a.top - SHARED_KEYS + Restrict(b.top, SHARED_KEYS) == map[];
  }

  /** The roster finds its accounts. */
  lemma Finds(m: Machine, s: Slot)
    requires DistinctIdentities(m) && NamesSlot(m, m.config, s)
    ensures Find(m, Identity(m.config).value) == Some(s) && Outgoing(m) == Some(s)
  {
    CurrentIsOutgoing(m, s);
  }

  /** An unforced switch to the live account re-installs its older generation. */
  lemma SelfSwitchHappens()
    ensures var r := PerformSwitch(BEFORE, 1, false, SMOOTH);
      r.outcome.Switched? && Seen(r.machine) == Value(STORED) && r.machine.backups[1] == ROTATED
  {
    Finds(BEFORE, 1);
    NothingShared(STORED, ROTATED);
  }

  /** The Keychain set fails, the file is written, the delete of the old item fails. */
  const SHADOWING := SMOOTH.(write := LiveIO(SetFailed, true, true, false, true))

  const SHADOWED := BEFORE.(
    live := Tier(Holds(OTHER), Some(ROTATED)), config := Home("you"), active := Some(2), backups := BEFORE.backups[1 := ROTATED])

  /** The switch reports success, and readers still see the account it left. */
  lemma ShadowedSwitch()
    ensures PerformSwitch(BEFORE, 2, false, SHADOWING) == Result(SHADOWED, Switched)
    ensures Seen(SHADOWED) == Value(ROTATED) && AccountOf(SHADOWED.config) == AccountOf(Home("you"))
  {
    Finds(BEFORE, 1);
    NothingShared(OTHER, ROTATED);
    var p := BEFORE.(backups := BEFORE.backups[1 := ROTATED]);
    assert Prepare(BEFORE, 2, false, SHADOWING) == Prep(p, true, false);
    ShadowedActivation(p);
  }

  lemma ShadowedActivation(p: Machine)
    requires p == BEFORE.(backups := BEFORE.backups[1 := ROTATED])
    ensures Activate(p, 2, OTHER, Some(ROTATED), Home("you"), false, SHADOWING) == Result(SHADOWED, Switched)
  {
    NothingShared(OTHER, ROTATED);
    assert WriteLive(p.live, true, false, OTHER, SHADOWING.write) ==
      Written(Tier(Holds(OTHER), Some(ROTATED)), true, true);
    var rest: Doc := map[];
    assert rest - {API_KEY_FIELD} == rest;
    assert ClearKey(Home("me"), true) == Home("me");
  }

  /**
   * The next switch, in which nothing fails, then stores that account's login as
   * the other's backup, and the other's own is gone.
   */
  lemma ShadowMisfilesNext()
    ensures var r := PerformSwitch(SHADOWED, 3, false, SMOOTH);
      r.outcome.Switched? && r.machine.backups[2] == ROTATED && Nowhere(r.machine, OTHER)
  {
    Finds(SHADOWED, 2);
    var p := Prepare(SHADOWED, 3, false, SMOOTH);
    assert p == Prep(SHADOWED.(backups := SHADOWED.backups[2 := ROTATED]), true, false);
    NothingShared(THIRD, ROTATED);
  }

  /** A process that has given up on the Keychain reads no login, keeps nothing, and drops the item. */
  lemma PinnedSwitchDestroysLogin()
    ensures var r := PerformSwitch(BEFORE, 2, false, SMOOTH.(pinned := true));
      r.outcome.Switched? && Nowhere(r.machine, ROTATED)
  {
    Finds(BEFORE, 1);
  }

  const OLDER := Blob("rt0", "at0", 50, map[], map[])

  /**
   * When the item cannot be read, the file's answer is taken for the login: an
   * older generation goes over the outgoing backup, and the newest is lost.
   */
  lemma DegradedReadIsCaptured()
    ensures var m := BEFORE.(live := Tier(Holds(OLDER), Some(ROTATED)));
      var r := PerformSwitch(m, 2, false, SMOOTH.(read := ReadIO(true, false)));
      r.outcome.Switched? && r.machine.backups[1] == OLDER && Nowhere(r.machine, ROTATED)
  {
    var m := BEFORE.(live := Tier(Holds(OLDER), Some(ROTATED)));
    Finds(m, 1);
    NothingShared(OTHER, OLDER);
    var p := Prepare(m, 2, false, SMOOTH.(read := ReadIO(true, false)));
    assert p == Prep(m.(backups := m.backups[1 := OLDER]), true, false);
  }

  const STRANGE := BEFORE.(config := Home("stranger"))

  /** A login of an account in no slot goes over the active slot's backup, and is not stashed. */
  lemma UnknownLoginOverwritesActive()
    ensures var r := PerformSwitch(STRANGE, 2, false, SMOOTH);
      && r.outcome.Switched? && r.machine.backups[1] == ROTATED && r.machine.stash == []
      && Identity(STRANGE.config) != Some(STRANGE.roster[1])
  {
    assert Identity(STRANGE.config) == Some("stranger") && Find(STRANGE, "stranger") == None;
    assert Outgoing(STRANGE) == Some(1);
    StoredIff(STRANGE, 2, false, SMOOTH, ROTATED);
    assert Prepare(STRANGE, 2, false, SMOOTH).ok;
    OutcomeIff(STRANGE, 2, false, SMOOTH);
  }
}
