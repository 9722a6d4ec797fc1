// The switch transaction (performSwitch and backupOutgoing of
// internal/switcher/switcher.go) with the live store it reads and writes
// (ReadActive, MergeShared and WriteActive of
// internal/credentials/credentials.go, SpliceOAuthAccount of
// internal/claudecfg/claudecfg.go). A live OAuth credential is a Keychain item,
// which readers prefer, and a file.

module SwitchSpec {
  import opened Base
  import opened OAuth
  import opened GateSpec
  import opened BackupSpec

  /** Credential fields that belong to the machine, not to the account. */
  const SHARED_KEYS := {"mcpOAuth", "mcpOAuthClientConfig", "mcpXaaIdp", "mcpXaaIdpConfig", "pluginSecrets"}

  const API_KEY_FIELD := "primaryApiKey"

  /** The oauthAccount object: who it names (email and organization), and its other text. */
  datatype Account = Account(identity: string, detail: string)

  /** A config file: missing, unparseable, or its oauthAccount beside every other key. */
  datatype Config = NoFile | Torn(text: string) | Parsed(account: Option<Account>, rest: Doc)

  /**
   * Everything a switch reads or writes; stash is the unclaimed store, keychain
   * whether there is one, order how iterating the roster happens to visit it.
   */
  datatype Machine = Machine(
    live: Tier<Cred>,
    keychain: bool,
    config: Config,
    active: Option<Slot>,
    roster: map<Slot, string>,
    order: seq<Slot>,
    backups: map<Slot, Cred>,
    configs: map<Slot, Config>,
    stash: seq<Cred>)

  /** One write of the live store: set the item, rewrite a file that is there; or write the file, drop the item. */
  datatype LiveIO = LiveIO(put: SetFate, rewrite: bool, file: bool, drop: bool, clearKey: bool)

  /**
   * renewed is what the gate refreshed before the locks, pinned whether the
   * process had given up on the Keychain by then, backupPins whether the
   * outgoing backup's write makes it do so; the undo ones are for rollback.
   */
  datatype SwitchIO = SwitchIO(
    renewed: Option<Cred>,
    pinned: bool,
    guardRead: ReadIO,
    read: ReadIO,
    targetReadable: bool,
    configReadable: bool,
    backupReadable: bool,
    backup: WriteFate,
    backupPins: bool,
    backupConfig: bool,
    stash: bool,
    write: LiveIO,
    writeConfig: bool,
    save: bool,
    undoConfig: bool,
    undo: LiveIO)

  /** The item shadows the file; one that cannot be read leaves the file as the answer. */
  function ReadActive(t: Tier<Cred>, usable: bool, io: ReadIO): Read<Cred> {
    if usable && io.item && t.item.Some? then Value(t.item.value)
    else if !io.file then Unreadable
    else if t.file.Holds? then Value(t.file.value)
    else Absent
  }

  const CLEAR_READ := ReadIO(true, true)

  /** What Claude Code reads, and any process that has not given up on the Keychain. */
  function Seen(m: Machine): Read<Cred> {
    ReadActive(m.live, m.keychain, CLEAR_READ)
  }

  /** What the switch itself reads under its locks. */
  function LiveRead(m: Machine, io: SwitchIO): Read<Cred> {
    ReadActive(m.live, m.keychain && !io.pinned, io.read)
  }

  function Login(r: Read<Cred>): Option<Cred> {
    if r.Value? then Some(r.value) else None
  }

  /** A failed set pins the process to the file and drops the item, a failure of which nobody notices. */
  function WriteLive(t: Tier<Cred>, keychain: bool, pinned: bool, c: Cred, io: LiveIO): Written<Cred> {
    var usable := keychain && !pinned;
    var t' := if usable then SetItem(t, c, io.put) else t;
    if usable && io.put.SetOk? then
      Written(if t.file.Missing? || !io.rewrite then t' else t'.(file := Holds(c)), pinned, true)
    else
      var pinned' := pinned || usable;
      if !io.file then Written(t', pinned', false)
      else Written(t'.(file := Holds(c), item := if keychain && io.drop then None else t'.item), pinned', true)
  }

  function Restrict(d: Doc, keys: set<string>): Doc {
    map k | k in d && k in keys :: d[k]
  }

  /** The live copies of the shared fields win; everything else stays the target's. */
  function MergeShared(target: Cred, live: Option<Cred>): Cred {
    if target.Blob? && live.Some? && live.value.Blob?
    then target.(top := (target.top - SHARED_KEYS) + Restrict(live.value.top, SHARED_KEYS))
    else target
  }

  /** What belongs to the account alone. */
  function Scoped(c: Cred): Cred {
    if c.Blob? then c.(top := c.top - SHARED_KEYS) else c
  }

  function Shared(c: Cred): Doc {
    if c.Blob? then Restrict(c.top, SHARED_KEYS) else map[]
  }

  predicate Wiped(c: Cred) {
    c.Blob? && c.access == "" && c.refresh == ""
  }

  function Identity(c: Config): Option<string> {
    if c.Parsed? && c.account.Some? && c.account.value.identity != "" then Some(c.account.value.identity) else None
  }

  ghost predicate DistinctIdentities(m: Machine) {
    forall a, b :: a in m.roster && b in m.roster && m.roster[a] == m.roster[b] ==> a == b
  }

  function FirstOf(order: seq<Slot>, roster: map<Slot, string>, identity: string): (s: Option<Slot>)
    ensures s.Some? ==> s.value in roster && roster[s.value] == identity
    ensures s.None? ==> forall t :: t in order && t in roster ==> roster[t] != identity
  {
    if order == [] then None
    else if order[0] in roster && roster[order[0]] == identity then Some(order[0])
    else FirstOf(order[1..], roster, identity)
  }

  /** The first slot of the identity that is met; two of them is not ruled out. */
  ghost function Find(m: Machine, identity: string): (s: Option<Slot>)
    ensures s.Some? ==> s.value in m.roster && m.roster[s.value] == identity
    ensures s.None? ==> forall t :: t in m.roster ==> m.roster[t] != identity
  {
    var first := FirstOf(m.order, m.roster, identity);
    if first.Some? then first
    else if exists t :: t in m.roster && m.roster[t] == identity
    then var t :| t in m.roster && m.roster[t] == identity; Some(t)
    else None
  }

  /** Clearing the other auth axis: a missing config is created empty, an unparseable one is left alone. */
  function ClearKey(c: Config, ok: bool): Config {
    if !ok then c
    else match c
      case NoFile => Parsed(None, map[])
      case Torn(_) => c
      case Parsed(account, rest) => Parsed(account, rest - {API_KEY_FIELD})
  }

  /** None when the splice fails. */
  function Splice(live: Config, backup: Config, ok: bool): Option<Config> {
    if !backup.Parsed? || backup.account.None? || !ok then None
    else if live.Parsed? then Some(Parsed(backup.account, live.rest))
    else Some(backup)
  }

  ghost function Outgoing(m: Machine): Option<Slot> {
    var id := Identity(m.config);
    if id.Some? && Find(m, id.value).Some? then Find(m, id.value)
    else if m.active.Some? && m.active.value in m.roster then m.active
    else None
  }

  datatype Prep = Prep(machine: Machine, ok: bool, pinned: bool)

  function BackupConfig(m: Machine, slot: Slot, pinned: bool, ok: bool): Prep {
    if m.config.NoFile? then Prep(m, true, pinned)
    else if ok then Prep(m.(configs := m.configs[slot := m.config]), true, pinned)
    else Prep(m, false, pinned)
  }

  /** The backup holds the live bytes already, or they are not worth keeping. */
  predicate NeedsNoBackup(m: Machine, slot: Slot, live: Cred, io: SwitchIO) {
    Wiped(live) || (io.backupReadable && slot in m.backups && m.backups[slot] == live)
  }

  function BackupOutgoing(m: Machine, slot: Slot, live: Cred, io: SwitchIO): Prep {
    if NeedsNoBackup(m, slot, live, io) then BackupConfig(m, slot, io.pinned, io.backupConfig)
    else
      var m' := if io.backup.NotStored? then m else m.(backups := m.backups[slot := live]);
      var pinned := io.pinned || io.backupPins;
      if io.backup.Stored? then BackupConfig(m', slot, pinned, io.backupConfig) else Prep(m', false, pinned)
  }

  /**
   * Keeps the outgoing credential somewhere before it is overwritten. A login
   * whose account is in no slot goes over the active slot's backup when there
   * is one, and only without an identity or an active slot to the stash.
   */
  ghost function Preserve(m: Machine, live: Cred, io: SwitchIO): Prep {
    if Outgoing(m).Some? && Identity(m.config).Some? then BackupOutgoing(m, Outgoing(m).value, live, io)
    else if io.stash then Prep(m.(stash := m.stash + [live]), true, io.pinned)
    else Prep(m, false, io.pinned)
  }

  /** The credential to activate, when the target's material is complete. */
  function Material(m: Machine, target: Slot, io: SwitchIO): Option<Cred> {
    if target !in m.roster || target !in m.configs || m.configs[target].NoFile? then None
    else if io.renewed.Some? then io.renewed
    else if io.targetReadable && target in m.backups then Some(m.backups[target])
    else None
  }

  /** The live login is the target's stored generation already; an unreadable live store reads as empty here. */
  ghost predicate AlreadyActive(m: Machine, target: Slot, io: SwitchIO) {
    && io.configReadable
    && Identity(m.config).Some? && Find(m, Identity(m.config).value) == Some(target)
    && var live := ReadActive(m.live, m.keychain, io.guardRead);
       live.Value? ==> io.targetReadable && target in m.backups && Fingerprint(live.value) == Fingerprint(m.backups[target])
  }

  /** Up to the first overwrite of the live store; ok is the licence to go on. */
  ghost function Prepare(m: Machine, target: Slot, force: bool, io: SwitchIO): Prep {
    var live := LiveRead(m, io);
    if Material(m, target, io).None? || live.Unreadable? || !io.configReadable then Prep(m, false, io.pinned)
    else if live.Absent? || Login(live) == Material(m, target, io) then Prep(m, true, io.pinned)
    else
      var p := Preserve(m, live.value, io);
      Prep(p.machine, p.ok || force, p.pinned)
  }

  datatype Outcome = Declined | NoChange | WriteFailed | RolledBack | Switched

  datatype Result = Result(machine: Machine, outcome: Outcome)

  /** live and config are what the transaction read before it began. */
  function Rollback(
    m: Machine, live: Option<Cred>, config: Config, pinned: bool, configWritten: bool, io: SwitchIO): Machine
  {
    var m' := if configWritten && !config.NoFile? && io.undoConfig then m.(config := config) else m;
    if live.None? then m'
    else
      var w := WriteLive(m'.live, m'.keychain, pinned, live.value, io.undo);
      m'.(live := w.main, config := if w.ok then ClearKey(m'.config, io.undo.clearKey) else m'.config)
  }

  /** The transaction proper; live and cfg are the login and the target's config backup as read before it. */
  function Activate(
    m: Machine, target: Slot, cred: Cred, live: Option<Cred>, cfg: Config, pinned: bool, io: SwitchIO): Result
  {
    var w := WriteLive(m.live, m.keychain, pinned, MergeShared(cred, live), io.write);
    if !w.ok then Result(m.(live := w.main), WriteFailed)
    else
      var m1 := m.(live := w.main, config := ClearKey(m.config, io.write.clearKey));
      var spliced := Splice(m1.config, cfg, io.writeConfig);
      if spliced.None? then Result(Rollback(m1, live, m.config, w.pinned, false, io), RolledBack)
      else
        var m2 := m1.(config := spliced.value);
        if !io.save then Result(Rollback(m2, live, m.config, w.pinned, true, io), RolledBack)
        else Result(m2.(active := Some(target)), Switched)
  }

  ghost function PerformSwitch(m: Machine, target: Slot, force: bool, io: SwitchIO): Result {
    if target !in m.roster then Result(m, Declined)
    else if !force && AlreadyActive(m, target, io) then Result(m, NoChange)
    else
      var cred := Material(m, target, io);
      var p := Prepare(m, target, force, io);
      if !p.ok || cred.None? then Result(p.machine, Declined)
      else Activate(p.machine, target, cred.value, Login(LiveRead(m, io)), m.configs[target], p.pinned, io)
  }
}

module Switcher {
  import opened Base
  import opened OAuth
  import opened GateSpec
  import opened BackupSpec
  import opened SwitchSpec

  /** The loop over the shared keys that edits the target's object in place. */
  method MergeInPlace(target: Cred, live: Option<Cred>) returns (merged: Cred)
    ensures merged == SwitchSpec.MergeShared(target, live)
  {
    if !target.Blob? || live.None? || !live.value.Blob? {
      return target;
    }
    var top := target.top;
    var keys := SHARED_KEYS;
    while keys != {}
      invariant keys <= SHARED_KEYS
      invariant forall k :: k in top <==>
        if k in SHARED_KEYS - keys then k in live.value.top else k in target.top
      invariant forall k :: k in top ==>
        top[k] == if k in SHARED_KEYS - keys then live.value.top[k] else target.top[k]
      decreases keys
    {
      var k :| k in keys;
      top := top - {k};
      if k in live.value.top {
        top := top[k := live.value.top[k]];
      }
      keys := keys - {k};
    }
    merged := target.(top := top);
    assert top == (target.top - SHARED_KEYS) + Restrict(live.value.top, SHARED_KEYS);
  }

  /** The stores of one machine, as one process works on them; pinned is that process's own. */
  class Stores {
    const keychain: bool
    var file: File<Cred>
    var item: Option<Cred>
    var pinned: bool
    var config: Config
    var active: Option<Slot>
    var roster: map<Slot, string>
    var order: seq<Slot>
    var backups: map<Slot, Cred>
    var configs: map<Slot, Config>
    var stash: seq<Cred>

    function Contents(): Machine
      reads this
    {
      Machine(Tier(file, item), keychain, config, active, roster, order, backups, configs, stash)
    }

    /** Iterating the roster misses none of its slots. */
    predicate Listed()
      reads this
    {
      forall s :: s in roster ==> s in order
    }

    method FindByIdentity(identity: string) returns (slot: Option<Slot>)
      requires Listed()
      ensures slot == Find(Contents(), identity)
    {
      for i := 0 to |order|
        invariant FirstOf(order, roster, identity) == FirstOf(order[i..], roster, identity)
      {
        assert order[i..][0] == order[i] && order[i..][1..] == order[i + 1..];
        if order[i] in roster && roster[order[i]] == identity {
          return Some(order[i]);
        }
      }
      slot := None;
    }

    /** The slot of the account that the live config names. */
    method FindLogin() returns (slot: Option<Slot>)
      requires Listed()
      ensures slot == if Identity(config).Some? then Find(Contents(), Identity(config).value) else None
    {
      slot := None;
      if Identity(config).Some? {
        slot := FindByIdentity(Identity(config).value);
      }
    }

    method ReadActive(io: ReadIO) returns (r: Read<Cred>)
      ensures r == SwitchSpec.ReadActive(Contents().live, keychain && !pinned, io)
    {
      if keychain && !pinned && io.item && item.Some? {
        return Value(item.value);
      }
      if !io.file {
        return Unreadable;
      }
      r := if file.Holds? then Value(file.value) else Absent;
    }

    method WriteActive(cred: Cred, io: LiveIO) returns (ok: bool)
      modifies this`file, this`item, this`pinned, this`config
      ensures Written(Contents().live, pinned, ok) == WriteLive(old(Contents().live), keychain, old(pinned), cred, io)
      ensures config == if ok then ClearKey(old(config), io.clearKey) else old(config)
    {
      if keychain && !pinned {
        if !io.put.SetFailed? {
          item := Some(cred);
        }
        if io.put.SetOk? {
          if !file.Missing? && io.rewrite {
            file := Holds(cred);
          }
          config := ClearKey(config, io.clearKey);
          return true;
        }
        pinned := true;
      }
      if !io.file {
        return false;
      }
      file := Holds(cred);
      if keychain && io.drop {
        item := None;
      }
      config := ClearKey(config, io.clearKey);
      ok := true;
    }

    method BackupConfig(slot: Slot, io: SwitchIO) returns (ok: bool)
      modifies this`configs
      ensures Prep(Contents(), ok, pinned) == SwitchSpec.BackupConfig(old(Contents()), slot, pinned, io.backupConfig)
    {
      if config.NoFile? {
        return true;
      }
      if io.backupConfig {
        configs := configs[slot := config];
      }
      ok := io.backupConfig;
    }

    method BackupOutgoing(slot: Slot, cred: Cred, io: SwitchIO) returns (ok: bool)
      requires pinned == io.pinned
      modifies this`backups, this`configs, this`pinned
      ensures Prep(Contents(), ok, pinned) == SwitchSpec.BackupOutgoing(old(Contents()), slot, cred, io)
    {
      if NeedsNoBackup(Contents(), slot, cred, io) {
        ok := BackupConfig(slot, io);
        return;
      }
      if !io.backup.NotStored? {
        backups := backups[slot := cred];
      }
      pinned := pinned || io.backupPins;
      if !io.backup.Stored? {
        return false;
      }
      ok := BackupConfig(slot, io);
    }

    /** Preserves the outgoing credential: in a slot's backup, or in the unclaimed store. */
    method Preserve(cred: Cred, from: Option<Slot>, io: SwitchIO) returns (ok: bool)
      requires from == Outgoing(Contents()) && pinned == io.pinned
      modifies this`backups, this`configs, this`pinned, this`stash
      ensures Prep(Contents(), ok, pinned) == SwitchSpec.Preserve(old(Contents()), cred, io)
    {
      if from.Some? && Identity(config).Some? {
        ok := BackupOutgoing(from.value, cred, io);
      } else {
        ok := io.stash;
        if ok {
          stash := stash + [cred];
        }
      }
    }

    /** Puts back what was read before, config first; nothing reports a failure of it. */
    method Rollback(before: Option<Cred>, beforeCfg: Config, configWritten: bool, io: SwitchIO)
      modifies this`file, this`item, this`pinned, this`config
      ensures Contents() ==
        SwitchSpec.Rollback(old(Contents()), before, beforeCfg, old(pinned), configWritten, io)
    {
      if configWritten && !beforeCfg.NoFile? && io.undoConfig {
        config := beforeCfg;
      }
      if before.Some? {
        var _ := WriteActive(before.value, io.undo);
      }
    }

    /** Activates the target, rolling completed steps back in reverse on failure. */
    method Transact(target: Slot, cred: Cred, before: Option<Cred>, targetCfg: Config, io: SwitchIO)
      returns (outcome: Outcome)
      modifies this`file, this`item, this`pinned, this`config, this`active
      ensures Result(Contents(), outcome) == Activate(old(Contents()), target, cred, before, targetCfg, old(pinned), io)
    {
      var beforeCfg := config;
      var merged := MergeInPlace(cred, before);
      ghost var w := WriteLive(Contents().live, keychain, pinned, merged, io.write);
      var credsWritten := WriteActive(merged, io.write);
      assert pinned == w.pinned && credsWritten == w.ok;
      if !credsWritten {
        return WriteFailed;
      }
      assert Contents() == old(Contents()).(live := w.main, config := ClearKey(beforeCfg, io.write.clearKey));
      var spliced := Splice(config, targetCfg, io.writeConfig);
      if spliced.None? {
        Rollback(before, beforeCfg, false, io);
        return RolledBack;
      }
      config := spliced.value;
      if !io.save {
        Rollback(before, beforeCfg, true, io);
        return RolledBack;
      }
      active := Some(target);
      outcome := Switched;
    }

    /** The guard before the locks: an unforced switch to the login that is there already. */
    method IsActive(target: Slot, from: Option<Slot>, io: SwitchIO) returns (yes: bool)
      requires from == (if Identity(config).Some? then Find(Contents(), Identity(config).value) else None)
      ensures yes == AlreadyActive(Contents(), target, io)
    {
      if !io.configReadable || from != Some(target) {
        return false;
      }
      var live := SwitchSpec.ReadActive(Contents().live, keychain, io.guardRead);
      yes := !live.Value?
        || (io.targetReadable && target in backups && Fingerprint(live.value) == Fingerprint(backups[target]));
    }

    /** Up to the first overwrite; live is what was read under the locks. */
    method Prepare(target: Slot, force: bool, live: Read<Cred>, from: Option<Slot>, io: SwitchIO) returns (ok: bool)
      requires pinned == io.pinned && live == LiveRead(Contents(), io) && from == Outgoing(Contents())
      modifies this`backups, this`configs, this`pinned, this`stash
      ensures Prep(Contents(), ok, pinned) == SwitchSpec.Prepare(old(Contents()), target, force, io)
    {
      var cred := Material(Contents(), target, io);
      if cred.None? || live.Unreadable? || !io.configReadable {
        return false;
      }
      ok := true;
      if live.Value? && live.value != cred.value {
        ok := Preserve(live.value, from, io);
        ok := ok || force;
      }
    }

    method PerformSwitch(target: Slot, force: bool, io: SwitchIO) returns (outcome: Outcome)
      requires Listed() && pinned == io.pinned
      modifies this
      ensures Result(Contents(), outcome) == SwitchSpec.PerformSwitch(old(Contents()), target, force, io)
    {
      if target !in roster {
        return Declined;
      }
      var from := FindLogin();
      if !force {
        var already := IsActive(target, from, io);
        if already {
          return NoChange;
        }
      }
      // Read the target's material first: nothing is mutated until both parts exist.
      var cred := Material(Contents(), target, io);
      var targetCfg := if target in configs then configs[target] else NoFile;
      var live := ReadActive(io.read);
      if from.None? && active.Some? && active.value in roster {
        from := active;
      }
      var ok := Prepare(target, force, live, from, io);
      if !ok || cred.None? {
        return Declined;
      }
      outcome := Transact(target, cred.value, Login(live), targetCfg, io);
    }
  }
}
