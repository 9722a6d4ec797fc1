// What switches guarantee, one at a time and over whole runs.

/** One write, and one read, of a live store in two places. */
module LiveLaws {
  import opened OAuth
  import opened BackupSpec
  import opened SwitchSpec

  function Shows(t: Tier<Cred>, keychain: bool): Read<Cred> {
    ReadActive(t, keychain, CLEAR_READ)
  }

  /** In file mode, or after a set that failed, an item the delete misses stays in front of the file. */
  predicate LeavesShadow(t: Tier<Cred>, keychain: bool, pinned: bool, c: Cred, io: LiveIO) {
    keychain && (pinned || io.put.SetFailed?) && !io.drop && t.item.Some? && t.item.value != c
  }

  /** A set that is reported failed lands, and the file that should follow is not written. */
  predicate SlipsThrough(t: Tier<Cred>, keychain: bool, pinned: bool, c: Cred, io: LiveIO) {
    keychain && !pinned && io.put.SetFailedButLanded? && !io.file && Shows(t, keychain) != Value(c)
  }

  /** A write that reports success is what readers see unless it leaves a shadow; then they see what they saw. */
  lemma SuccessShowsIff(t: Tier<Cred>, keychain: bool, pinned: bool, c: Cred, io: LiveIO)
    requires WriteLive(t, keychain, pinned, c, io).ok
    ensures var after := Shows(WriteLive(t, keychain, pinned, c, io).main, keychain);
      && (after == Value(c) <==> !LeavesShadow(t, keychain, pinned, c, io))
      && (after == Value(c) || after == Shows(t, keychain))
  {
  }

  /** A write that reports failure changes what readers see exactly when it slips through. */
  lemma FailureShowsIff(t: Tier<Cred>, keychain: bool, pinned: bool, c: Cred, io: LiveIO)
    requires !WriteLive(t, keychain, pinned, c, io).ok
    ensures var after := Shows(WriteLive(t, keychain, pinned, c, io).main, keychain);
      && (after == Shows(t, keychain) <==> !SlipsThrough(t, keychain, pinned, c, io))
      && (after == Value(c) || after == Shows(t, keychain))
  {
  }

  /** The item can be read, or says no more than a readable file. */
  predicate SeesLogin(m: Machine, io: SwitchIO) {
    || (m.keychain && m.live.item.Some? && !io.pinned && io.read.item)
    || (io.read.file && (m.keychain && m.live.item.Some? ==> m.live.file == Holds(m.live.item.value)))
  }

  /** A switch works on the login that readers see exactly then. */
  lemma ReadsSeenIff(m: Machine, io: SwitchIO)
    ensures LiveRead(m, io) == Seen(m) <==> SeesLogin(m, io)
  {
  }
}

module SwitchLaws {
  import opened Base
  import opened OAuth
  import opened GateSpec
  import opened BackupSpec
  import opened SwitchSpec
  import opened LiveLaws

  function AccountOf(c: Config): Option<Account> {
    if c.Parsed? then c.account else None
  }

  /** Every key of a config but the two a switch may touch. */
  function Kept(c: Config): Doc {
    if c.Parsed? then c.rest - {API_KEY_FIELD} else map[]
  }

  lemma BackupShape(m: Machine, slot: Slot, live: Cred, io: SwitchIO)
    ensures var p := BackupOutgoing(m, slot, live, io).machine;
      && p == m.(backups := p.backups, configs := p.configs)
      && p.backups == (if NeedsNoBackup(m, slot, live, io) || io.backup.NotStored? then m.backups else m.backups[slot := live])
      && (p.configs == m.configs || p.configs == m.configs[slot := m.config])
  {
  }

  /** A preparation writes the outgoing slot's two backups, or stashes, and nothing else. */
  lemma PreserveShape(m: Machine, live: Cred, io: SwitchIO)
    ensures var p := Preserve(m, live, io).machine;
      && p == m.(backups := p.backups, configs := p.configs, stash := p.stash)
      && (p.backups == m.backups || (Outgoing(m).Some? && p.backups == m.backups[Outgoing(m).value := live]))
      && (p.configs == m.configs || (Outgoing(m).Some? && p.configs == m.configs[Outgoing(m).value := m.config]))
      && (p.stash == m.stash || p.stash == m.stash + [live])
  {
    if Outgoing(m).Some? {
      BackupShape(m, Outgoing(m).value, live, io);
    }
  }

  lemma PrepareChangesOnlyCopies(m: Machine, target: Slot, force: bool, io: SwitchIO)
    ensures var p := Prepare(m, target, force, io).machine;
      p == m.(backups := p.backups, configs := p.configs, stash := p.stash)
  {
    if LiveRead(m, io).Value? {
      PreserveShape(m, LiveRead(m, io).value, io);
    }
  }

  /** The credential a switch writes. */
  function Merged(m: Machine, target: Slot, io: SwitchIO): Cred
    requires Material(m, target, io).Some?
  {
    MergeShared(Material(m, target, io).value, Login(LiveRead(m, io)))
  }

  /** The live store after the forward write. */
  ghost function Forward(m: Machine, target: Slot, force: bool, io: SwitchIO): Written<Cred>
    requires Material(m, target, io).Some?
  {
    WriteLive(m.live, m.keychain, Prepare(m, target, force, io).pinned, Merged(m, target, io), io.write)
  }

  /** The forward write leaves an old item in front of the target's credential. */
  ghost predicate ShadowsTarget(m: Machine, target: Slot, force: bool, io: SwitchIO)
    requires Material(m, target, io).Some?
  {
    LeavesShadow(m.live, m.keychain, Prepare(m, target, force, io).pinned, Merged(m, target, io), io.write)
  }

  /** The rollback's write leaves an item in front of the login it puts back. */
  ghost predicate ShadowsReturn(m: Machine, target: Slot, force: bool, io: SwitchIO)
    requires Material(m, target, io).Some? && LiveRead(m, io).Value?
  {
    var w := Forward(m, target, force, io);
    LeavesShadow(w.main, m.keychain, w.pinned, LiveRead(m, io).value, io.undo)
  }

  ghost predicate SlipsForward(m: Machine, target: Slot, force: bool, io: SwitchIO)
    requires Material(m, target, io).Some?
  {
    SlipsThrough(m.live, m.keychain, Prepare(m, target, force, io).pinned, Merged(m, target, io), io.write)
  }

  lemma ClearKeeps(c: Config, ok: bool)
    requires c.Parsed?
    ensures var r := ClearKey(c, ok);
      r.Parsed? && Kept(r) == Kept(c) && r.account == c.account
  {
  }

  lemma SpliceKeeps(live: Config, backup: Config, ok: bool)
    requires live.Parsed? && Splice(live, backup, ok).Some?
    ensures var r := Splice(live, backup, ok).value;
      r.Parsed? && Kept(r) == Kept(live) && AccountOf(backup).Some? && r.account == AccountOf(backup)
  {
  }

  /** The config after a transaction whose rollback's live write succeeds; wrote is whether its forward one did. */
  function ConfigAfter(c: Config, cfg: Config, login: bool, wrote: bool, io: SwitchIO): Config {
    var cleared := ClearKey(c, io.write.clearKey);
    var spliced := Splice(cleared, cfg, io.writeConfig);
    if !wrote then c
    else if spliced.Some? && io.save then spliced.value
    else
      var back :=
        if spliced.None? then cleared else if !c.NoFile? && io.undoConfig then c else spliced.value;
      if login then ClearKey(back, io.undo.clearKey) else back
  }

  lemma ActivateConfig(
    m: Machine, target: Slot, cred: Cred, live: Option<Cred>, cfg: Config, pinned: bool, io: SwitchIO)
    requires io.undo.file
    ensures var r := Activate(m, target, cred, live, cfg, pinned, io);
      var wrote := WriteLive(m.live, m.keychain, pinned, MergeShared(cred, live), io.write).ok;
      && r.machine.config == ConfigAfter(m.config, cfg, live.Some?, wrote, io)
      && r.machine.roster == m.roster
      && r.machine.active == (if r.outcome.Switched? then Some(target) else m.active)
      && (r.outcome.Switched? <==>
            wrote && Splice(ClearKey(m.config, io.write.clearKey), cfg, io.writeConfig).Some? && io.save)
      && (r.outcome.RolledBack? <==> wrote && !r.outcome.Switched?)
  {
  }

  lemma ConfigAfterKeeps(c: Config, cfg: Config, login: bool, wrote: bool, io: SwitchIO)
    requires c.Parsed? && io.undoConfig
    ensures var r := ConfigAfter(c, cfg, login, wrote, io);
      var spliced := Splice(ClearKey(c, io.write.clearKey), cfg, io.writeConfig);
      && r.Parsed? && Kept(r) == Kept(c)
      && if wrote && spliced.Some? && io.save then AccountOf(cfg).Some? && r.account == AccountOf(cfg)
         else r.account == c.account
  {
    var cleared := ClearKey(c, io.write.clearKey);
    ClearKeeps(c, io.write.clearKey);
    ClearKeeps(cleared, io.undo.clearKey);
    ClearKeeps(c, io.undo.clearKey);
    if Splice(cleared, cfg, io.writeConfig).Some? {
      SpliceKeeps(cleared, cfg, io.writeConfig);
    }
  }

  /** The config and the active pointer after the transaction alone. */
  lemma ActivateNames(
    m: Machine, target: Slot, cred: Cred, live: Option<Cred>, cfg: Config, pinned: bool, io: SwitchIO)
    requires m.config.Parsed? && io.undoConfig && io.undo.file
    ensures var r := Activate(m, target, cred, live, cfg, pinned, io);
      && r.machine.config.Parsed? && Kept(r.machine.config) == Kept(m.config) && r.machine.roster == m.roster
      && (if r.outcome.Switched? then AccountOf(cfg).Some? && AccountOf(r.machine.config) == AccountOf(cfg)
          else AccountOf(r.machine.config) == AccountOf(m.config))
      && r.machine.active == (if r.outcome.Switched? then Some(target) else m.active)
  {
    ActivateConfig(m, target, cred, live, cfg, pinned, io);
    ConfigAfterKeeps(m.config, cfg, live.Some?,
                     WriteLive(m.live, m.keychain, pinned, MergeShared(cred, live), io.write).ok, io);
  }

  /** The live store after it. */
  lemma ActivateWrites(
    m: Machine, target: Slot, cred: Cred, live: Option<Cred>, cfg: Config, pinned: bool, io: SwitchIO)
    ensures var r := Activate(m, target, cred, live, cfg, pinned, io);
      var w := WriteLive(m.live, m.keychain, pinned, MergeShared(cred, live), io.write);
      && r.machine.keychain == m.keychain && !r.outcome.Declined? && !r.outcome.NoChange?
      && (r.outcome.WriteFailed? <==> !w.ok)
      && r.machine.live == if r.outcome.RolledBack? && live.Some?
           then WriteLive(w.main, m.keychain, w.pinned, live.value, io.undo).main else w.main
  {
  }

  /**
   * All or nothing. With a login read, a parseable config and rollback writes
   * that report success, a switch that reports success names the target in the
   * config and the active pointer, and any other outcome leaves both, and the
   * other config keys, as they were. The live credential follows, as readers
   * see it, exactly when no old item is left in front: after success they see
   * the target's, after a rollback the login the switch had read, and otherwise
   * what they saw.
   */
  lemma AllOrNothing(m: Machine, target: Slot, force: bool, io: SwitchIO)
    requires LiveRead(m, io).Value? && m.config.Parsed? && io.undoConfig && io.undo.file
    ensures var r := PerformSwitch(m, target, force, io);
      && r.machine.config.Parsed? && Kept(r.machine.config) == Kept(m.config) && r.machine.roster == m.roster
      && r.machine.keychain == m.keychain
      && if r.outcome.Switched? then
           && Material(m, target, io).Some? && target in m.configs && AccountOf(m.configs[target]).Some?
           && AccountOf(r.machine.config) == AccountOf(m.configs[target])
           && r.machine.active == Some(target)
         else
           && AccountOf(r.machine.config) == AccountOf(m.config)
           && r.machine.active == m.active
    ensures var r := PerformSwitch(m, target, force, io);
      match r.outcome
      case Switched => Seen(r.machine) == Value(Merged(m, target, io)) <==> !ShadowsTarget(m, target, force, io)
      case RolledBack =>
        Material(m, target, io).Some? && (Seen(r.machine) == LiveRead(m, io) <==> !ShadowsReturn(m, target, force, io))
      case WriteFailed =>
        Material(m, target, io).Some? && (Seen(r.machine) == Seen(m) <==> !SlipsForward(m, target, force, io))
      case _ => r.machine.live == m.live
  {
    PrepareChangesOnlyCopies(m, target, force, io);
    var r := PerformSwitch(m, target, force, io);
    if !r.outcome.Declined? && !r.outcome.NoChange? {
      var p := Prepare(m, target, force, io);
      var live := LiveRead(m, io).value;
      var w := Forward(m, target, force, io);
      var cred := Material(m, target, io).value;
      ActivateNames(p.machine, target, cred, Some(live), m.configs[target], p.pinned, io);
      ActivateWrites(p.machine, target, cred, Some(live), m.configs[target], p.pinned, io);
      if w.ok {
        SuccessShowsIff(m.live, m.keychain, p.pinned, Merged(m, target, io), io.write);
        SuccessShowsIff(w.main, m.keychain, w.pinned, live, io.undo);
      } else {
        FailureShowsIff(m.live, m.keychain, p.pinned, Merged(m, target, io), io.write);
      }
    }
  }

  /** What readers see is what the outcome says. */
  ghost predicate Honest(m: Machine, target: Slot, force: bool, io: SwitchIO) {
    match PerformSwitch(m, target, force, io).outcome
    case Switched => !ShadowsTarget(m, target, force, io)
    case RolledBack => LiveRead(m, io).Value? ==> !ShadowsReturn(m, target, force, io)
    case WriteFailed => !SlipsForward(m, target, force, io)
    case _ => true
  }

  lemma ConfigRestoredIff(c: Config, cfg: Config, login: bool, io: SwitchIO)
    requires io.undoConfig && (Splice(ClearKey(c, io.write.clearKey), cfg, io.writeConfig).None? || !io.save)
    ensures AccountOf(ConfigAfter(c, cfg, login, true, io)) == AccountOf(c) <==>
      !c.NoFile? || Splice(ClearKey(c, io.write.clearKey), cfg, io.writeConfig).None?
  {
  }

  lemma RollbackNamesIff(m: Machine, target: Slot, force: bool, io: SwitchIO)
    requires io.undoConfig && io.undo.file
    requires Goes(m, target, force, io) && Forward(m, target, force, io).ok && !Completes(m, target, force, io)
    ensures var r := PerformSwitch(m, target, force, io).machine;
      && r.config == ConfigAfter(m.config, m.configs[target], LiveRead(m, io).Value?, true, io)
      && r.active == m.active
  {
    PrepareChangesOnlyCopies(m, target, force, io);
    var p := Prepare(m, target, force, io);
    ActivateConfig(
      p.machine, target, Material(m, target, io).value, Login(LiveRead(m, io)), m.configs[target], p.pinned, io);
  }

  lemma RollbackShowsIff(m: Machine, target: Slot, force: bool, io: SwitchIO)
    requires io.undo.file
    requires Goes(m, target, force, io) && Forward(m, target, force, io).ok && !Completes(m, target, force, io)
    ensures Seen(PerformSwitch(m, target, force, io).machine) == LiveRead(m, io) <==>
      LiveRead(m, io).Value? && !ShadowsReturn(m, target, force, io)
  {
    OutcomeIff(m, target, force, io);
    PrepareChangesOnlyCopies(m, target, force, io);
    var p := Prepare(m, target, force, io);
    var w := Forward(m, target, force, io);
    var live := Login(LiveRead(m, io));
    ActivateWrites(p.machine, target, Material(m, target, io).value, live, m.configs[target], p.pinned, io);
    SuccessShowsIff(m.live, m.keychain, p.pinned, Merged(m, target, io), io.write);
    if live.Some? {
      SuccessShowsIff(w.main, m.keychain, w.pinned, live.value, io.undo);
    }
  }

  /**
   * Exactly what rollback cannot undo, when its own writes report success: a
   * live store that read as empty keeps the target's credential, a login put
   * back behind an item stays hidden, and a config that did not exist keeps the
   * target's oauthAccount once that was written.
   */
  lemma RollbackRestoresIff(m: Machine, target: Slot, force: bool, io: SwitchIO)
    requires io.undoConfig && io.undo.file
    requires Goes(m, target, force, io) && Forward(m, target, force, io).ok && !Completes(m, target, force, io)
    ensures var r := PerformSwitch(m, target, force, io).machine;
      && (Seen(r) == LiveRead(m, io) <==> LiveRead(m, io).Value? && !ShadowsReturn(m, target, force, io))
      && (AccountOf(r.config) == AccountOf(m.config) <==>
            !m.config.NoFile? || Splice(ClearKey(m.config, io.write.clearKey), m.configs[target], io.writeConfig).None?)
      && r.active == m.active
  {
    RollbackShowsIff(m, target, force, io);
    RollbackNamesIff(m, target, force, io);
    ConfigRestoredIff(m.config, m.configs[target], LiveRead(m, io).Value?, io);
  }

  // --- the other auth axis --------------------------------------------------

  /** A managed API key is set in the config, which Claude Code would go by. */
  predicate HasKey(c: Config) {
    c.Parsed? && "primaryApiKey" in c.rest
  }

  /** The target's identity gets into the config. */
  predicate Splices(m: Machine, target: Slot, io: SwitchIO)
    requires target in m.configs
  {
    AccountOf(m.configs[target]).Some? && io.writeConfig
  }

  /** The rollback's live write reports success, and with it the key is cleared. */
  ghost predicate UndoClears(m: Machine, target: Slot, force: bool, io: SwitchIO)
    requires Material(m, target, io).Some?
  {
    var w := Forward(m, target, force, io);
    && LiveRead(m, io).Value? && WriteLive(w.main, m.keychain, w.pinned, LiveRead(m, io).value, io.undo).ok
    && io.undo.clearKey
  }

  lemma RollbackConfig(
    m: Machine, live: Option<Cred>, config: Config, pinned: bool, configWritten: bool, io: SwitchIO)
    ensures var r := Rollback(m, live, config, pinned, configWritten, io);
      var c := if configWritten && !config.NoFile? && io.undoConfig then config else m.config;
      r.config ==
        if live.Some? && WriteLive(m.live, m.keychain, pinned, live.value, io.undo).ok
        then ClearKey(c, io.undo.clearKey) else c
  {
  }

  /** The key after the transaction alone. */
  lemma ActivateKeyIff(
    m: Machine, target: Slot, cred: Cred, live: Option<Cred>, cfg: Config, pinned: bool, io: SwitchIO)
    ensures var r := Activate(m, target, cred, live, cfg, pinned, io);
      var w := WriteLive(m.live, m.keychain, pinned, MergeShared(cred, live), io.write);
      var spliced := AccountOf(cfg).Some? && io.writeConfig;
      var undone := live.Some? && WriteLive(w.main, m.keychain, w.pinned, live.value, io.undo).ok && io.undo.clearKey;
      match r.outcome
      case Switched =>
        (match m.config
         case Parsed(_, _) => HasKey(r.machine.config) <==> HasKey(m.config) && !io.write.clearKey
         case NoFile => HasKey(r.machine.config) <==> HasKey(cfg) && !io.write.clearKey
         case Torn(_) => r.machine.config == cfg)
      case RolledBack =>
        (match m.config
         case Parsed(_, _) =>
           HasKey(r.machine.config) <==>
             HasKey(m.config) && !undone && (!io.write.clearKey || (spliced && io.undoConfig))
         case NoFile => HasKey(r.machine.config) <==> spliced && HasKey(cfg) && !io.write.clearKey && !undone
         case Torn(_) =>
           if spliced && !io.undoConfig then HasKey(r.machine.config) <==> HasKey(cfg) && !undone
           else r.machine.config == m.config)
      case _ => r.machine.config == m.config
  {
    var w := WriteLive(m.live, m.keychain, pinned, MergeShared(cred, live), io.write);
    var m1 := m.(live := w.main, config := ClearKey(m.config, io.write.clearKey));
    var spliced := Splice(m1.config, cfg, io.writeConfig);
    RollbackConfig(m1, live, m.config, w.pinned, false, io);
    if spliced.Some? {
      RollbackConfig(m1.(config := spliced.value), live, m.config, w.pinned, true, io);
    }
  }

  /**
   * The single auth axis. After a switch to an OAuth login a key that was set in
   * a readable config is still there exactly when clearing it failed; after a
   * rollback, also when the text from before the switch was put back and the
   * rollback did not clear it in turn. A config that was missing has the key only
   * when the target's whole backup was written over it and has it; a torn one
   * stays byte for byte unless that backup replaces it. Short of that nothing
   * touches the config.
   */
  lemma KeyLeftIff(m: Machine, target: Slot, force: bool, io: SwitchIO)
    ensures var r := PerformSwitch(m, target, force, io);
      match r.outcome
      case Switched =>
        && target in m.configs
        && (match m.config
            case Parsed(_, _) => HasKey(r.machine.config) <==> HasKey(m.config) && !io.write.clearKey
            case NoFile => HasKey(r.machine.config) <==> HasKey(m.configs[target]) && !io.write.clearKey
            case Torn(_) => r.machine.config == m.configs[target])
      case RolledBack =>
        && target in m.configs && Material(m, target, io).Some?
        && var spliced := Splices(m, target, io);
           var undone := UndoClears(m, target, force, io);
           (match m.config
            case Parsed(_, _) =>
              HasKey(r.machine.config) <==>
                HasKey(m.config) && !undone && (!io.write.clearKey || (spliced && io.undoConfig))
            case NoFile =>
              HasKey(r.machine.config) <==> spliced && HasKey(m.configs[target]) && !io.write.clearKey && !undone
            case Torn(_) =>
              if spliced && !io.undoConfig then HasKey(r.machine.config) <==> HasKey(m.configs[target]) && !undone
              else r.machine.config == m.config)
      case _ => r.machine.config == m.config
  {
    PrepareChangesOnlyCopies(m, target, force, io);
    OutcomeIff(m, target, force, io);
    if Goes(m, target, force, io) {
      var p := Prepare(m, target, force, io);
      ActivateKeyIff(
        p.machine, target, Material(m, target, io).value, Login(LiveRead(m, io)), m.configs[target], p.pinned, io);
    }
  }

  // --- what is kept ---------------------------------------------------------

  /** A credential is kept: as the outgoing slot's backup, or in the unclaimed store. */
  ghost predicate Saved(m: Machine, r: Machine, c: Cred) {
    || (Outgoing(m).Some? && Outgoing(m).value in r.backups && r.backups[Outgoing(m).value] == c)
    || c in r.stash
  }

  /** No other slot's backup moved, and nothing left the unclaimed store. */
  ghost predicate OthersKept(m: Machine, r: Machine) {
    && (forall s :: s in m.backups && Outgoing(m) != Some(s) ==> s in r.backups && r.backups[s] == m.backups[s])
    && (forall c :: c in m.stash ==> c in r.stash)
  }

  lemma PreserveSaves(m: Machine, live: Cred, io: SwitchIO)
    ensures var p := Preserve(m, live, io);
      OthersKept(m, p.machine) && (p.ok ==> Wiped(live) || Saved(m, p.machine, live))
  {
    PreserveShape(m, live, io);
  }

  lemma RollbackKeepsCopies(
    m: Machine, live: Option<Cred>, config: Config, pinned: bool, configWritten: bool, io: SwitchIO)
    ensures var r := Rollback(m, live, config, pinned, configWritten, io);
      r == m.(live := r.live, config := r.config)
  {
  }

  lemma ActivateKeepsCopies(
    m: Machine, target: Slot, cred: Cred, live: Option<Cred>, cfg: Config, pinned: bool, io: SwitchIO)
    ensures var r := Activate(m, target, cred, live, cfg, pinned, io).machine;
      r.roster == m.roster && r.configs == m.configs && r.backups == m.backups && r.stash == m.stash
  {
    var w := WriteLive(m.live, m.keychain, pinned, MergeShared(cred, live), io.write);
    var m1 := m.(live := w.main, config := ClearKey(m.config, io.write.clearKey));
    var spliced := Splice(m1.config, cfg, io.writeConfig);
    RollbackKeepsCopies(m1, live, m.config, w.pinned, false, io);
    if spliced.Some? {
      RollbackKeepsCopies(m1.(config := spliced.value), live, m.config, w.pinned, true, io);
    }
  }

  /** The copies a switch leaves are those its preparation made. */
  lemma SwitchKeepsCopies(m: Machine, target: Slot, force: bool, io: SwitchIO)
    ensures var r := PerformSwitch(m, target, force, io);
      var p := Prepare(m, target, force, io).machine;
      if r.outcome.NoChange? || target !in m.roster then r.machine == m
      else r.machine.backups == p.backups && r.machine.configs == p.configs && r.machine.stash == p.stash
           && r.machine.roster == m.roster
  {
    PrepareChangesOnlyCopies(m, target, force, io);
    var p := Prepare(m, target, force, io);
    if Material(m, target, io).Some? {
      ActivateKeepsCopies(
        p.machine, target, Material(m, target, io).value, Login(LiveRead(m, io)), m.configs[target], p.pinned, io);
    }
  }

  /**
   * No unforced switch destroys the live credential it read. Whenever it went
   * as far as writing the live store, those bytes are in the outgoing slot's
   * backup or the unclaimed store, or were the target's own, or were a wiped
   * blob; and no other slot's backup moved.
   */
  lemma NothingDestroyed(m: Machine, target: Slot, io: SwitchIO)
    requires LiveRead(m, io).Value?
    ensures var r := PerformSwitch(m, target, false, io);
      var c := LiveRead(m, io).value;
      && (r.outcome.Switched? || r.outcome.RolledBack? || r.outcome.WriteFailed? ==>
            || (c.Blob? && c.access == "" && c.refresh == "")
            || Some(c) == Material(m, target, io) || Saved(m, r.machine, c))
      && OthersKept(m, r.machine)
  {
    PreserveSaves(m, LiveRead(m, io).value, io);
    SwitchKeepsCopies(m, target, false, io);
  }

  /** A credential is nowhere: not live, not in a backup, not stashed. */
  ghost predicate Nowhere(m: Machine, c: Cred) {
    && m.live.file != Holds(c) && m.live.item != Some(c)
    && (forall s :: s in m.backups ==> m.backups[s] != c) && c !in m.stash
  }

  lemma PreserveKeepsNowhere(m: Machine, live: Cred, io: SwitchIO, c: Cred)
    requires c != live && (forall s :: s in m.backups ==> m.backups[s] != c) && c !in m.stash
    ensures var p := Preserve(m, live, io).machine;
      (forall s :: s in p.backups ==> p.backups[s] != c) && c !in p.stash
  {
    PreserveShape(m, live, io);
  }

  /** The switch gets as far as writing the live store. */
  ghost predicate Goes(m: Machine, target: Slot, force: bool, io: SwitchIO) {
    && target in m.roster && (force || !AlreadyActive(m, target, io))
    && Material(m, target, io).Some? && Prepare(m, target, force, io).ok
  }

  /** A live write leaves the item alone: no Keychain, or no set lands and no delete is reached and works. */
  predicate KeepsItem(keychain: bool, pinned: bool, io: LiveIO) {
    !keychain || ((pinned || io.put.SetFailed?) && (!io.file || !io.drop))
  }

  /** The forward write succeeds, the config's or the pointer's fails, and there is a login to put back. */
  ghost predicate PutsBack(m: Machine, target: Slot, force: bool, io: SwitchIO)
    requires target in m.configs && Material(m, target, io).Some?
  {
    && LiveRead(m, io).Value? && Forward(m, target, force, io).ok
    && (Splice(ClearKey(m.config, io.write.clearKey), m.configs[target], io.writeConfig).None? || !io.save)
  }

  /** The forward write leaves the item, and so does the rollback's where there is one. */
  ghost predicate ItemStays(m: Machine, target: Slot, force: bool, io: SwitchIO)
    requires Material(m, target, io).Some?
  {
    && KeepsItem(m.keychain, Prepare(m, target, force, io).pinned, io.write)
    && (PutsBack(m, target, force, io) ==> KeepsItem(m.keychain, Forward(m, target, force, io).pinned, io.undo))
  }

  lemma WriteKeepsItemIff(t: Tier<Cred>, keychain: bool, pinned: bool, c: Cred, io: LiveIO, kept: Cred)
    requires c != kept && t.file != Holds(kept)
    ensures var w := WriteLive(t, keychain, pinned, c, io).main;
      && w.file != Holds(kept)
      && (w.item == Some(kept) <==> t.item == Some(kept) && KeepsItem(keychain, pinned, io))
  {
  }

  /**
   * The login that readers see and the switch did not is not protected: an item
   * it could not or would not read, of which there is no other copy, is gone
   * after a switch, whatever the switch reports, exactly when it goes as far as
   * writing the live store and a write does not leave the item alone.
   */
  lemma UnreadLoginLostIff(m: Machine, target: Slot, force: bool, io: SwitchIO, c: Cred)
    requires m.live.item == Some(c) && LiveRead(m, io) != Value(c)
    requires Nowhere(m.(live := m.live.(item := None)), c)
    requires Material(m, target, io).Some? ==> Merged(m, target, io) != c
    ensures Nowhere(PerformSwitch(m, target, force, io).machine, c) <==>
      Goes(m, target, force, io) && !ItemStays(m, target, force, io)
  {
    SwitchKeepsCopies(m, target, force, io);
    PrepareChangesOnlyCopies(m, target, force, io);
    if LiveRead(m, io).Value? {
      PreserveKeepsNowhere(m, LiveRead(m, io).value, io, c);
    }
    if Goes(m, target, force, io) {
      var p := Prepare(m, target, force, io);
      var live := Login(LiveRead(m, io));
      var w := Forward(m, target, force, io);
      ActivateWrites(p.machine, target, Material(m, target, io).value, live, m.configs[target], p.pinned, io);
      ActivatesBackIff(p.machine, target, Material(m, target, io).value, live, m.configs[target], p.pinned, io);
      WriteKeepsItemIff(m.live, m.keychain, p.pinned, Merged(m, target, io), io.write, c);
      if live.Some? {
        WriteKeepsItemIff(w.main, m.keychain, w.pinned, live.value, io.undo, c);
      }
    }
  }

  lemma ActivatesBackIff(
    m: Machine, target: Slot, cred: Cred, live: Option<Cred>, cfg: Config, pinned: bool, io: SwitchIO)
    ensures Activate(m, target, cred, live, cfg, pinned, io).outcome.RolledBack? <==>
      && WriteLive(m.live, m.keychain, pinned, MergeShared(cred, live), io.write).ok
      && (Splice(ClearKey(m.config, io.write.clearKey), cfg, io.writeConfig).None? || !io.save)
  {
  }

  lemma PrepareCopies(m: Machine, target: Slot, force: bool, io: SwitchIO)
    ensures var p := Prepare(m, target, force, io).machine;
      var live := LiveRead(m, io);
      p == if Material(m, target, io).Some? && io.configReadable && live.Value? && Login(live) != Material(m, target, io)
           then Preserve(m, live.value, io).machine else m
  {
  }

  /** The forward write and everything after it succeed. */
  ghost predicate Completes(m: Machine, target: Slot, force: bool, io: SwitchIO)
    requires Goes(m, target, force, io)
  {
    && Forward(m, target, force, io).ok
    && Splice(ClearKey(m.config, io.write.clearKey), m.configs[target], io.writeConfig).Some? && io.save
  }

  /** What a switch reports, by what is there and which calls succeed. */
  lemma OutcomeIff(m: Machine, target: Slot, force: bool, io: SwitchIO)
    ensures var o := PerformSwitch(m, target, force, io).outcome;
      && (o.Switched? <==> Goes(m, target, force, io) && Completes(m, target, force, io))
      && (o.WriteFailed? <==> Goes(m, target, force, io) && !Forward(m, target, force, io).ok)
      && (o.RolledBack? <==> Goes(m, target, force, io) && !o.WriteFailed? && !o.Switched?)
  {
    PrepareChangesOnlyCopies(m, target, force, io);
    if Goes(m, target, force, io) {
      var p := Prepare(m, target, force, io);
      var cred := Material(m, target, io).value;
      var live := Login(LiveRead(m, io));
      ActivateWrites(p.machine, target, cred, live, m.configs[target], p.pinned, io);
      ActivatesBackIff(p.machine, target, cred, live, m.configs[target], p.pinned, io);
    }
  }

  // --- where the bytes read are stored --------------------------------------

  /** The switch made c the backup of slot s. */
  ghost predicate StoredAt(m: Machine, r: Machine, s: Slot, c: Cred) {
    s in r.backups && r.backups[s] == c && (s !in m.backups || m.backups[s] != c)
  }

  /** The bytes a switch read as the login go into a backup that does not hold them, or the stash. */
  ghost predicate StoresRead(m: Machine, target: Slot, force: bool, io: SwitchIO)
    requires LiveRead(m, io).Value?
  {
    var c := LiveRead(m, io).value;
    && target in m.roster && (force || !AlreadyActive(m, target, io)) && io.configReadable
    && Material(m, target, io).Some? && Material(m, target, io) != Some(c)
    && if Outgoing(m).Some? && Identity(m.config).Some?
       then !Wiped(c) && !io.backup.NotStored? && (Outgoing(m).value !in m.backups || m.backups[Outgoing(m).value] != c)
       else io.stash
  }

  /**
   * Exactly when a switch stores the bytes it read, and where: under the slot of
   * the config's identity, under the active one when that identity has none, or
   * in the stash. ReadsSeenIff says when those bytes are not the login.
   */
  lemma StoredIff(m: Machine, target: Slot, force: bool, io: SwitchIO, c: Cred)
    requires LiveRead(m, io) == Value(c)
    ensures var r := PerformSwitch(m, target, force, io).machine;
      && ((exists s :: StoredAt(m, r, s, c)) || r.stash == m.stash + [c] <==> StoresRead(m, target, force, io))
      && (StoresRead(m, target, force, io) ==>
            if Outgoing(m).Some? && Identity(m.config).Some?
            then r.backups == m.backups[Outgoing(m).value := c] && r.stash == m.stash
            else r.backups == m.backups && r.stash == m.stash + [c])
  {
    SwitchKeepsCopies(m, target, force, io);
    PrepareCopies(m, target, force, io);
    var r := PerformSwitch(m, target, force, io).machine;
    assert |m.stash + [c]| != |m.stash|;
    if Outgoing(m).Some? && Identity(m.config).Some? {
      var s := Outgoing(m).value;
      BackupShape(m, s, c, io);
      assert StoresRead(m, target, force, io) ==> StoredAt(m, r, s, c);
    }
  }

  /**
   * The file's answer while the item could not be read, which may be a consumed
   * predecessor, is captured exactly then.
   */
  lemma DegradedCapturedIff(m: Machine, target: Slot, force: bool, io: SwitchIO, c: Cred)
    requires LiveRead(m, io) == Value(c)
    ensures var r := PerformSwitch(m, target, force, io).machine;
      && Seen(m) != Value(c)
      && ((exists s :: StoredAt(m, r, s, c)) || r.stash == m.stash + [c])
      <==> StoresRead(m, target, force, io) && !SeesLogin(m, io)
  {
    StoredIff(m, target, force, io, c);
    ReadsSeenIff(m, io);
  }

  /**
   * Exactly when a switch stores a login under a slot that is not its owner's
   * (None for an account in no slot): the config names an account, and the slot
   * found for it, or the active one in its stead, is another than the owner.
   */
  lemma MisownedIff(m: Machine, target: Slot, force: bool, io: SwitchIO, c: Cred, owner: Option<Slot>)
    requires LiveRead(m, io) == Value(c)
    ensures var r := PerformSwitch(m, target, force, io).machine;
      (exists s :: StoredAt(m, r, s, c) && Some(s) != owner) <==>
        && StoresRead(m, target, force, io)
        && Identity(m.config).Some? && Outgoing(m).Some? && Outgoing(m) != owner
  {
    StoredIff(m, target, force, io, c);
    var r := PerformSwitch(m, target, force, io).machine;
    if StoresRead(m, target, force, io) && Outgoing(m).Some? && Identity(m.config).Some? {
      assert StoredAt(m, r, Outgoing(m).value, c);
    }
  }

  // --- logins of accounts in no slot ----------------------------------------

  /** Some slot's backup changed although the config named another account, or none. */
  ghost predicate Misfiles(m: Machine, r: Machine) {
    exists s :: s in m.roster && s in r.backups && (s !in m.backups || r.backups[s] != m.backups[s])
      && Identity(m.config) != Some(m.roster[s])
  }

  /** The login names an account of no slot, some slot is active, and its backup is written with that login. */
  ghost predicate OverwritesActive(m: Machine, target: Slot, io: SwitchIO) {
    && target in m.roster && Material(m, target, io).Some? && io.configReadable
    && Identity(m.config).Some? && Find(m, Identity(m.config).value).None?
    && m.active.Some? && m.active.value in m.roster
    && LiveRead(m, io).Value? && Login(LiveRead(m, io)) != Material(m, target, io)
    && !Wiped(LiveRead(m, io).value) && !io.backup.NotStored?
    && (m.active.value !in m.backups || m.backups[m.active.value] != LiveRead(m, io).value)
  }

  lemma PreserveMisfilesIff(m: Machine, live: Cred, io: SwitchIO)
    ensures Misfiles(m, Preserve(m, live, io).machine) <==>
      && Identity(m.config).Some? && Find(m, Identity(m.config).value).None?
      && m.active.Some? && m.active.value in m.roster
      && !Wiped(live) && !io.backup.NotStored?
      && (m.active.value !in m.backups || m.backups[m.active.value] != live)
  {
    var p := Preserve(m, live, io).machine;
    if Outgoing(m).Some? {
      BackupShape(m, Outgoing(m).value, live, io);
    }
    if Identity(m.config).Some? && Find(m, Identity(m.config).value).None? && m.active.Some? && m.active.value in m.roster {
      assert m.roster[m.active.value] != Identity(m.config).value;
      assert Outgoing(m) == m.active;
      if m.active.value in p.backups && (m.active.value !in m.backups || p.backups[m.active.value] != m.backups[m.active.value]) {
        assert Misfiles(m, p);
      }
    }
  }

  /**
   * Exactly when a switch overwrites the backup of a slot whose account the
   * config does not name: a login identified as an account of no slot is not
   * stashed while some slot is active, but written over that slot's backup.
   */
  lemma MisfilesIff(m: Machine, target: Slot, force: bool, io: SwitchIO)
    ensures Misfiles(m, PerformSwitch(m, target, force, io).machine) <==> OverwritesActive(m, target, io)
    ensures OverwritesActive(m, target, io) ==>
      var r := PerformSwitch(m, target, force, io).machine;
      && m.active.value in r.backups && r.backups[m.active.value] == LiveRead(m, io).value
      && r.stash == m.stash
  {
    SwitchKeepsCopies(m, target, force, io);
    PrepareCopies(m, target, force, io);
    if LiveRead(m, io).Value? {
      PreserveMisfilesIff(m, LiveRead(m, io).value, io);
      if OverwritesActive(m, target, io) {
        BackupShape(m, m.active.value, LiveRead(m, io).value, io);
      }
    }
  }

  // --- step by step -----------------------------------------------------------

  /** Without the target's config backup, or its credential, nothing at all is changed. */
  lemma MissingMaterialDeclines(m: Machine, target: Slot, force: bool, io: SwitchIO)
    requires || target !in m.roster || target !in m.configs || m.configs[target].NoFile?
             || (io.renewed.None? && (!io.targetReadable || target !in m.backups))
    ensures var r := PerformSwitch(m, target, force, io);
      r.machine == m && (r.outcome.Declined? || r.outcome.NoChange?)
  {
  }

  /** A credential the gate has just renewed is the one activated, not the stored one. */
  lemma RenewedWins(m: Machine, target: Slot, force: bool, io: SwitchIO)
    requires io.renewed.Some? && io.renewed.value.Blob? && Goes(m, target, force, io)
    ensures var c := Merged(m, target, io);
      c.Blob? && c.refresh == io.renewed.value.refresh && c.access == io.renewed.value.access
  {
  }

  /** The live bytes already being the backup, the store need not take them again for the switch to go on. */
  lemma OwnBytesNeedNoWrite(m: Machine, target: Slot, io: SwitchIO, s: Slot)
    requires Outgoing(m) == Some(s) && Identity(m.config).Some? && Material(m, target, io).Some? && io.configReadable
    requires LiveRead(m, io).Value? && Login(LiveRead(m, io)) != Material(m, target, io)
    requires io.backupReadable && s in m.backups && m.backups[s] == LiveRead(m, io).value
    ensures var p := Prepare(m, target, false, io);
      && (p.ok <==> m.config.NoFile? || io.backupConfig)
      && p.machine.backups == m.backups && p.pinned == io.pinned
  {
  }

  /** An unforced switch away that gets to the live store has kept the live config as the outgoing slot's. */
  lemma OutgoingConfigKept(m: Machine, target: Slot, io: SwitchIO, s: Slot)
    requires Outgoing(m) == Some(s) && Identity(m.config).Some? && Goes(m, target, false, io)
    requires LiveRead(m, io).Value? && Login(LiveRead(m, io)) != Material(m, target, io)
    ensures var r := PerformSwitch(m, target, false, io).machine;
      s in r.configs && r.configs[s] == m.config
  {
    SwitchKeepsCopies(m, target, false, io);
  }

  /** Where the Keychain takes the credential no file is made, and one that is there is brought up to date. */
  lemma NoFileIsMade(t: Tier<Cred>, pinned: bool, c: Cred, io: LiveIO)
    requires !pinned && io.put.SetOk?
    ensures var w := WriteLive(t, true, pinned, c, io);
      && w.ok && !w.pinned
      && (w.main.file.Missing? <==> t.file.Missing?)
      && (!t.file.Missing? && io.rewrite ==> w.main.file == Holds(c))
      && (!io.rewrite ==> w.main.file == t.file)
  {
  }

  /** A merge takes the machine's five fields from the live login, absence included. */
  lemma MergedFields(target: Cred, live: Cred, k: string)
    requires target.Blob? && live.Blob?
    ensures var c := MergeShared(target, Some(live));
      && c.Blob?
      && if k in {"mcpOAuth", "mcpOAuthClientConfig", "mcpXaaIdp", "mcpXaaIdpConfig", "pluginSecrets"}
         then (k in c.top <==> k in live.top) && (k in c.top ==> c.top[k] == live.top[k])
         else (k in c.top <==> k in target.top) && (k in c.top ==> c.top[k] == target.top[k])
  {
  }

  /** A config that cannot be read is no proof of an account: the switch stops, with nothing changed. */
  lemma UnreadableConfigDeclines(m: Machine, target: Slot, force: bool, io: SwitchIO)
    requires !io.configReadable
    ensures PerformSwitch(m, target, force, io) == Result(m, Declined)
  {
  }

  /** A login whose config names nobody is stashed, not put in a slot, before an unforced switch overwrites it. */
  lemma UnidentifiedIsStashed(m: Machine, target: Slot, io: SwitchIO)
    requires AccountOf(m.config).None? || AccountOf(m.config).value.identity == ""
    requires Goes(m, target, false, io)
    requires LiveRead(m, io).Value? && Login(LiveRead(m, io)) != Material(m, target, io)
    ensures var r := PerformSwitch(m, target, false, io).machine;
      r.stash == m.stash + [LiveRead(m, io).value] && r.backups == m.backups
  {
    SwitchKeepsCopies(m, target, false, io);
  }
}
