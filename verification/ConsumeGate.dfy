// The consume gate (internal/switcher/consume.go, with stashCredential of
// switcher.go and PurgeUnclaimed of unclaimed.go).
//
// Every foreign call that can fail takes its outcome from a parameter, so each
// step is a function of the disk and of those outcomes. The functions are the
// specification; class GateStore below is the code, method by method.

module GateSpec {
  import opened Base
  import opened OAuth
  import opened Ids

  /** A slot together with the account in it: the key of a backup. */
  type Slot = int

  /** A stash row id; the manifest's ids are compared as the code sorts them. */
  type RowId = int

  datatype Reason =
    | PersistFailed
    | PersistLockFailed
    | Unpersisted
    | StoreUnreadable
    | SlotRemoved
    | CasConflict
    | Displaced

  predicate Demoting(r: Reason) {
    r.PersistFailed? || r.PersistLockFailed? || r.Unpersisted? || r.StoreUnreadable?
  }

  /** A manifest row; consumedFp is set by the gate only. */
  datatype Row = Row(slot: Slot, reason: Reason, consumedFp: Option<Fp>)

  /** Backups, the unclaimed manifest, and the entry files that decode. */
  datatype Disk = Disk(backups: map<Slot, Cred>, rows: map<RowId, Row>, entries: map<RowId, Cred>) {

    /** Row id of slot holds, on disk, a successor of generation fp. */
    ghost predicate Keyed(id: RowId, slot: Slot, fp: Fp) {
      id in rows && rows[id].slot == slot && rows[id].consumedFp == Some(fp)
    }

    ghost predicate Live(id: RowId, slot: Slot, fp: Fp) {
      Keyed(id, slot, fp) && id in entries
    }
  }

  // --- outcomes of the foreign calls ---------------------------------------

  /** A backup write; a failing one may still have replaced what readers see. */
  datatype WriteFate = Stored | NotStored | StoredButFailed

  /** strays: entry files lie about that do not decode; entries has only those that do. */
  datatype ManifestRead = ManifestOk | ManifestUnreadable | ManifestCorrupt(strays: bool)

  /** What stops a purge: the file cannot go, the manifest is locked, unreadable, or not writable. */
  datatype PurgeFate = Purged | FileStuck | ManifestBusy | ManifestNotRead | RowKept

  /** stray: the entry file is there although it does not decode. */
  datatype PurgeIO = PurgeIO(fate: PurgeFate, stray: bool)

  /** ManifestReplaced: the manifest could not be read, so a new one with this row alone was written. */
  datatype StashFate = RowWritten(id: RowId) | NothingWritten | EntryOnly(id: RowId) | ManifestReplaced(id: RowId)

  /** profile is what a quiescent, unflagged, undrifted session profile holds. */
  datatype InputIO = InputIO(
    lock: bool,
    readable: bool,
    manifest: ManifestRead,
    unreadable: set<RowId>,
    adopt: WriteFate,
    purge: map<RowId, PurgeIO>,
    roster: bool,
    profile: Option<Cred>,
    profileRead: bool,
    profileWrite: WriteFate,
    reread: bool)

  /** absent: a process that has given up on the Keychain since the re-read's own read finds no backup in the file. */
  datatype PersistIO = PersistIO(lock: bool, readable: bool, absent: bool, write: WriteFate, stash: StashFate)

  // --- writes, stashing, purging -------------------------------------------

  function Write(d: Disk, slot: Slot, cred: Cred, fate: WriteFate): Disk {
    if fate.NotStored? then d else d.(backups := d.backups[slot := cred])
  }

  datatype Done = Done(disk: Disk, ok: bool)

  function Stash(d: Disk, cred: Cred, row: Row, fate: StashFate): Done {
    match fate
    case RowWritten(id) => Done(d.(rows := d.rows[id := row], entries := d.entries[id := cred]), true)
    case NothingWritten => Done(d, false)
    case EntryOnly(id) => Done(d.(entries := d.entries[id := cred]), false)
    case ManifestReplaced(id) => Done(d.(rows := map[id := row], entries := d.entries[id := cred]), true)
  }

  function Purge(d: Disk, id: RowId, io: PurgeIO): Done {
    var removed := id in d.entries || io.stray;
    match io.fate
    case FileStuck => Done(d, false)
    case ManifestBusy => Done(d.(entries := d.entries - {id}), false)
    case ManifestNotRead => Done(d.(entries := d.entries - {id}), removed)
    case RowKept => Done(d.(entries := d.entries - {id}), removed || id in d.rows)
    case Purged => Done(d.(entries := d.entries - {id}, rows := d.rows - {id}), removed || id in d.rows)
  }

  const CLEAN_PURGE := PurgeIO(Purged, false)

  function FateOf(purge: map<RowId, PurgeIO>, id: RowId): PurgeIO {
    if id in purge then purge[id] else CLEAN_PURGE
  }

  /** Retiring stops at the first row that cannot be purged. */
  function RetireAll(d: Disk, ids: seq<RowId>, purge: map<RowId, PurgeIO>): Disk
    decreases |ids|
  {
    if ids == [] then d
    else
      var p := Purge(d, ids[0], FateOf(purge, ids[0]));
      if p.ok then RetireAll(p.disk, ids[1..], purge) else p.disk
  }

  // --- scanning and adopting -----------------------------------------------

  ghost predicate Adoptable(d: Disk, slot: Slot, fp: Fp, unreadable: set<RowId>, id: RowId) {
    d.Live(id, slot, fp) && id !in unreadable
  }

  /** A row no pass can ever adopt: bytes gone, or a conflict the slot has moved past. */
  ghost predicate Retirable(d: Disk, slot: Slot, fp: Fp, unreadable: set<RowId>, id: RowId) {
    && id in d.rows && d.rows[id].slot == slot
    && ((id !in d.entries && id !in unreadable) || (d.rows[id].consumedFp != Some(fp) && d.rows[id].reason.CasConflict?))
  }

  datatype Scan = ScanFailed | Scanned(found: Option<RowId>, retire: seq<RowId>)

  ghost predicate IsScan(d: Disk, slot: Slot, fp: Fp, io: InputIO, s: Scan) {
    if io.manifest.ManifestUnreadable? || (io.manifest.ManifestCorrupt? && (d.entries != map[] || io.manifest.strays)) then s.ScanFailed?
    else if io.manifest.ManifestCorrupt? then s == Scanned(None, [])
    else if exists id :: Adoptable(d, slot, fp, io.unreadable, id) then
      && s.Scanned? && s.found.Some?
      && Adoptable(d, slot, fp, io.unreadable, s.found.value)
      && (forall id :: Adoptable(d, slot, fp, io.unreadable, id) ==> s.found.value <= id)
      && Ascending(s.retire)
      && (forall id :: id in s.retire <==> Retirable(d, slot, fp, io.unreadable, id) && id < s.found.value)
    else if exists id :: d.Keyed(id, slot, fp) && id in io.unreadable then s.ScanFailed?
    else
      && s.Scanned? && s.found.None?
      && Ascending(s.retire)
      && (forall id :: id in s.retire <==> Retirable(d, slot, fp, io.unreadable, id))
  }

  /** The scan's result is determined: the least adoptable row and the retirable rows before it. */
  ghost function ScanStash(d: Disk, slot: Slot, fp: Fp, io: InputIO): (s: Scan)
    ensures IsScan(d, slot, fp, io, s)
  {
    var adoptable := set id | id in d.rows && Adoptable(d, slot, fp, io.unreadable, id);
    var retirable := set id | id in d.rows && Retirable(d, slot, fp, io.unreadable, id);
    assert forall id :: Adoptable(d, slot, fp, io.unreadable, id) ==> id in adoptable;
    if io.manifest.ManifestUnreadable? || (io.manifest.ManifestCorrupt? && (d.entries != map[] || io.manifest.strays)) then ScanFailed
    else if io.manifest.ManifestCorrupt? then Scanned(None, [])
    else if adoptable != {} then
      var found := Least(adoptable);
      var before := set id | id in retirable && id < found;
      SortedIdsSorted(before);
      assert Adoptable(d, slot, fp, io.unreadable, found);
      Scanned(Some(found), SortedIds(before))
    else if exists id :: d.Keyed(id, slot, fp) && id in io.unreadable then ScanFailed
    else
      SortedIdsSorted(retirable);
      Scanned(None, SortedIds(retirable))
  }

  lemma ScanUnique(d: Disk, slot: Slot, fp: Fp, io: InputIO, s: Scan)
    requires IsScan(d, slot, fp, io, s)
    ensures s == ScanStash(d, slot, fp, io)
  {
    var t := ScanStash(d, slot, fp, io);
    if s.Scanned? && t.Scanned? {
      AscendingUnique(s.retire, t.retire);
    }
  }

  datatype Adopted = Adopted(disk: Disk, kind: Kind, cred: Option<Cred>)

  /** Completes a prior pass's failed persist; the rows found dead go on the way. */
  ghost function Adopt(d: Disk, slot: Slot, current: Cred, io: InputIO): Adopted {
    match ScanStash(d, slot, Fingerprint(current), io)
    case ScanFailed => Adopted(d, StashUnreadable, None)
    case Scanned(None, retire) => Adopted(RetireAll(d, retire, io.purge), NoError, None)
    case Scanned(Some(id), retire) =>
      var cred := d.entries[id];
      if io.adopt.Stored? then
        Adopted(RetireAll(Write(d, slot, cred, io.adopt), retire + [id], io.purge), NoError, Some(cred))
      else
        Adopted(Write(d, slot, cred, io.adopt), Transient, None)
  }

  /** The profile's credential is a strictly later generation than the backup. */
  predicate ProfileAhead(profile: Cred, backup: Cred) {
    && profile.Blob?
    && Fingerprint(profile) != Fingerprint(backup)
    && profile.expiresAt > (if backup.Blob? then backup.expiresAt else 0)
  }

  // --- the three parts of a pass -------------------------------------------

  datatype Input = Input(disk: Disk, kind: Kind, current: Option<Cred>)

  /** The profile's copy was ahead of what the pass had, and its write changed the slot. */
  ghost predicate TookProfile(d: Disk, slot: Slot, io: InputIO) {
    && io.lock && io.readable && slot in d.backups && io.roster
    && var a := Adopt(d, slot, d.backups[slot], io);
    && a.kind == NoError
    && io.profile.Some? && io.profileRead && !io.profileWrite.NotStored?
    && ProfileAhead(io.profile.value, if a.cred.Some? then a.cred.value else d.backups[slot])
  }

  ghost function GateInput(d: Disk, slot: Slot, io: InputIO): Input {
    if !io.lock || !io.readable || slot !in d.backups then Input(d, Transient, None)
    else
      var a := Adopt(d, slot, d.backups[slot], io);
      if a.kind != NoError then Input(a.disk, a.kind, None)
      else if !io.roster then Input(a.disk, Transient, None)
      else
        var current := if a.cred.Some? then a.cred.value else d.backups[slot];
        if io.profile.Some? && io.profileRead && ProfileAhead(io.profile.value, current) then
          var e := Write(a.disk, slot, io.profile.value, io.profileWrite);
          Input(e, NoError, Some(if io.profileWrite.Stored? && io.reread then io.profile.value else current))
        else Input(a.disk, NoError, Some(current))
  }

  datatype Decision = AlreadyFresh | NoPost(kind: Kind) | Post

  /** Whether the input is POSTed, or the refresh the caller wanted already happened. */
  function Decide(input: Cred, snapshot: Cred, nowMs: int): Decision {
    if input.Blob? && input.access != "" && snapshot.Blob? && snapshot.access != ""
       && snapshot.access != input.access && !Expired(input.expiresAt, nowMs) then AlreadyFresh
    else if Refusal(input) != NoError then NoPost(Refusal(input))
    else Post
  }

  datatype Persisted = Persisted(disk: Disk, cred: Cred, reason: Option<Reason>)

  /** Parks the successor under the generation it superseded. */
  function Park(d: Disk, slot: Slot, successor: Cred, fp: Fp, reason: Reason, fate: StashFate, now: Cred): Persisted {
    var s := Stash(d, successor, Row(slot, reason, Some(fp)), fate);
    Persisted(s.disk, now, Some(if s.ok then reason else Unpersisted))
  }

  /** Compare-and-swap on the fingerprint: persist, or park. */
  function Persist(d: Disk, slot: Slot, successor: Cred, fp: Fp, io: PersistIO): Persisted {
    if !io.lock then Park(d, slot, successor, fp, PersistLockFailed, io.stash, successor)
    else if !io.readable then Park(d, slot, successor, fp, StoreUnreadable, io.stash, successor)
    else if io.absent || slot !in d.backups then Park(d, slot, successor, fp, SlotRemoved, io.stash, successor)
    else if Fingerprint(d.backups[slot]) != fp then Park(d, slot, successor, fp, CasConflict, io.stash, d.backups[slot])
    else if io.write.Stored? then Persisted(Write(d, slot, successor, io.write), successor, None)
    else Park(Write(d, slot, successor, io.write), slot, successor, fp, PersistFailed, io.stash, successor)
  }

  datatype GrantOutcome = GrantOutcome(cred: Option<Cred>, err: Kind, consumedFp: Option<Fp>, stashed: bool)

  function Finish(p: Persisted, fp: Fp): GrantOutcome {
    if p.reason.Some? && Demoting(p.reason.value)
    then GrantOutcome(Some(p.cred), Transient, Some(fp), !p.reason.value.Unpersisted?)
    else GrantOutcome(Some(p.cred), NoError, Some(fp), false)
  }

  /** What other processes do to the backups while the POST is in flight. */
  datatype Writer = Install(slot: Slot, cred: Cred) | Remove(slot: Slot)

  function Interfere(d: Disk, ws: seq<Writer>): Disk
    decreases |ws|
  {
    if ws == [] then d
    else
      var d := Interfere(d, ws[..|ws| - 1]);
      match ws[|ws| - 1]
      case Install(slot, cred) => d.(backups := d.backups[slot := cred])
      case Remove(slot) => d.(backups := d.backups - {slot})
  }

  /** Everything one pass meets, and the clock it reads. */
  datatype PassIO = PassIO(input: InputIO, nowMs: int, reply: Reply, during: seq<Writer>, persist: PersistIO)

  /** posted is the credential sent to the endpoint, successor what it answered with. */
  datatype Pass = Pass(disk: Disk, outcome: GrantOutcome, posted: Option<Cred>, successor: Option<Cred>)

  ghost function ConsumeLocked(d: Disk, slot: Slot, snapshot: Cred, io: PassIO): Pass {
    var i := GateInput(d, slot, io.input);
    if i.kind != NoError || i.current.None? then Pass(i.disk, GrantOutcome(None, i.kind, None, false), None, None)
    else
      var input := i.current.value;
      var fp := Fingerprint(input);
      match Decide(input, snapshot, io.nowMs)
      case AlreadyFresh => Pass(i.disk, GrantOutcome(Some(input), NoError, Some(fp), false), None, None)
      case NoPost(kind) => Pass(i.disk, GrantOutcome(None, kind, Some(fp), false), None, None)
      case Post =>
        var d' := Interfere(i.disk, io.during);
        if Classify(io.reply) != NoError then
          Pass(d', GrantOutcome(None, Classify(io.reply), Some(fp), false), Some(input), None)
        else
          var successor := Successor(input, io.reply, io.nowMs);
          var p := Persist(d', slot, successor, fp, io.persist);
          Pass(p.disk, Finish(p, fp), Some(input), Some(successor))
  }
}

module ConsumeGate {
  import opened Base
  import opened OAuth
  import opened Ids
  import opened GateSpec

  /** The files one gate works on. */
  class GateStore {
    var backups: map<Slot, Cred>
    var rows: map<RowId, Row>
    var entries: map<RowId, Cred>

    ghost function Contents(): Disk
      reads this
    {
      Disk(backups, rows, entries)
    }

    method WriteBackup(slot: Slot, cred: Cred, fate: WriteFate) returns (ok: bool)
      modifies this
      ensures ok == fate.Stored?
      ensures Contents() == Write(old(Contents()), slot, cred, fate)
    {
      if !fate.NotStored? {
        backups := backups[slot := cred];
      }
      ok := fate.Stored?;
    }

    /** The entry file is written first, then the manifest row. */
    method StashCredential(cred: Cred, row: Row, fate: StashFate) returns (ok: bool)
      modifies this
      ensures Done(Contents(), ok) == Stash(old(Contents()), cred, row, fate)
    {
      match fate
      case NothingWritten =>
        ok := false;
      case EntryOnly(id) =>
        entries := entries[id := cred];
        ok := false;
      case ManifestReplaced(id) =>
        entries := entries[id := cred];
        rows := map[];
        rows := rows[id := row];
        ok := true;
      case RowWritten(id) =>
        entries := entries[id := cred];
        rows := rows[id := row];
        ok := true;
    }

    /** The entry file goes first, then the manifest row. */
    method PurgeUnclaimed(id: RowId, io: PurgeIO) returns (ok: bool)
      modifies this
      ensures Done(Contents(), ok) == Purge(old(Contents()), id, io)
    {
      if io.fate.FileStuck? {
        return false;
      }
      var fileExisted := id in entries || io.stray;
      entries := entries - {id};
      if io.fate.ManifestBusy? {
        return false;
      }
      var removedRow := false;
      if !io.fate.ManifestNotRead? && id in rows {
        removedRow := true;
        if io.fate.Purged? {
          rows := rows - {id};
        }
      }
      assert io.fate.Purged? && !removedRow ==> rows == rows - {id};
      ok := fileExisted || removedRow;
    }

    method RetireStashRows(ids: seq<RowId>, purge: map<RowId, PurgeIO>)
      modifies this
      ensures Contents() == RetireAll(old(Contents()), ids, purge)
    {
      for i := 0 to |ids|
        invariant RetireAll(old(Contents()), ids, purge) == RetireAll(Contents(), ids[i..], purge)
      {
        ghost var rest := ids[i..];
        assert rest[0] == ids[i] && rest[1..] == ids[i + 1..];
        var ok := PurgeUnclaimed(ids[i], FateOf(purge, ids[i]));
        if !ok {
          return;
        }
      }
    }

    /** One pass over the slot's rows in id order, stopping at the first readable match. */
    method ScanStash(slot: Slot, curFp: Fp, io: InputIO) returns (scan: Scan)
      ensures scan == GateSpec.ScanStash(Contents(), slot, curFp, io)
    {
      if io.manifest.ManifestUnreadable? || (io.manifest.ManifestCorrupt? && (entries != map[] || io.manifest.strays)) {
        return ScanFailed;
      }
      if io.manifest.ManifestCorrupt? {
        return Scanned(None, []);
      }
      var ids := Sort(set id | id in rows && rows[id].slot == slot);
      scan := ScanRows(ids, slot, curFp, io);
    }

    /** The loop over the slot's rows, in id order. */
    method ScanRows(ids: seq<RowId>, slot: Slot, curFp: Fp, io: InputIO) returns (scan: Scan)
      requires io.manifest.ManifestOk? && ids == SortedIds(set id | id in rows && rows[id].slot == slot)
      ensures scan == GateSpec.ScanStash(Contents(), slot, curFp, io)
    {
      ghost var d := Contents();
      SortedIdsSorted(set id | id in rows && rows[id].slot == slot);

      var deferred := false;
      var retire: seq<RowId> := [];
      for i := 0 to |ids|
        invariant ScannedTo(d, slot, curFp, io, ids, i, retire, deferred)
      {
        var id := ids[i];
        assert id in ids;
        var row := rows[id];
        var unreadable := id in io.unreadable;
        var gone := !unreadable && id !in entries;
        if row.consumedFp == Some(curFp) && !unreadable && !gone {
          FirstAdoptable(d, slot, curFp, io, ids, i, retire, deferred);
          return Scanned(Some(id), retire);
        }
        ScanStep(d, slot, curFp, io, ids, i, retire, deferred);
        if row.consumedFp != Some(curFp) {
          if row.reason.CasConflict? || gone {
            retire := retire + [id];
          }
        } else if unreadable {
          deferred := true;
        } else {
          retire := retire + [id];
        }
      }
      NoneAdoptable(d, slot, curFp, io, ids, retire, deferred);
      scan := if deferred then ScanFailed else Scanned(None, retire);
    }

    method AdoptStashedSuccessor(slot: Slot, current: Cred, io: InputIO) returns (kind: Kind, adopted: Option<Cred>)
      modifies this
      ensures Adopted(Contents(), kind, adopted) == Adopt(old(Contents()), slot, current, io)
    {
      var scan := ScanStash(slot, Fingerprint(current), io);
      if scan.ScanFailed? {
        return StashUnreadable, None;
      }
      var retire := scan.retire;
      adopted := None;
      if scan.found.Some? {
        adopted := Some(entries[scan.found.value]);
        var ok := WriteBackup(slot, adopted.value, io.adopt);
        if !ok {
          return Transient, None;
        }
        retire := retire + [scan.found.value];
      }
      RetireStashRows(retire, io.purge);
      kind := NoError;
    }

    /** Caller of the locked re-read; the lock itself is io.lock. */
    method GateInput(slot: Slot, io: InputIO) returns (kind: Kind, current: Option<Cred>)
      modifies this
      ensures Input(Contents(), kind, current) == GateSpec.GateInput(old(Contents()), slot, io)
    {
      if !io.lock || !io.readable || slot !in backups {
        return Transient, None;
      }
      var cur := backups[slot];
      var adopted;
      kind, adopted := AdoptStashedSuccessor(slot, cur, io);
      if kind != NoError {
        return kind, None;
      }
      if adopted.Some? {
        cur := adopted.value;
      }
      if !io.roster {
        return Transient, None;
      }
      if io.profile.Some? && io.profileRead && ProfileAhead(io.profile.value, cur) {
        var ok := WriteBackup(slot, io.profile.value, io.profileWrite);
        if ok && io.reread {
          cur := backups[slot];
        }
      }
      current := Some(cur);
    }

    method PersistSuccessor(slot: Slot, successor: Cred, consumedFp: Fp, io: PersistIO)
      returns (cred: Cred, reason: Option<Reason>)
      modifies this
      ensures Persisted(Contents(), cred, reason) == Persist(old(Contents()), slot, successor, consumedFp, io)
    {
      cred := successor;
      var why;
      if !io.lock {
        why := PersistLockFailed;
      } else if !io.readable {
        why := StoreUnreadable;
      } else if io.absent || slot !in backups {
        why := SlotRemoved;
      } else if Fingerprint(backups[slot]) != consumedFp {
        cred := backups[slot];
        why := CasConflict;
      } else {
        var stored := WriteBackup(slot, successor, io.write);
        if stored {
          return successor, None;
        }
        why := PersistFailed;
      }
      var ok := StashCredential(successor, Row(slot, why, Some(consumedFp)), io.stash);
      reason := Some(if ok then why else Unpersisted);
    }

    /** The steps other processes take while the POST is in flight. */
    method DuringPost(ws: seq<Writer>)
      modifies this
      ensures Contents() == Interfere(old(Contents()), ws)
    {
      for i := 0 to |ws|
        invariant Contents() == Interfere(old(Contents()), ws[..i])
      {
        assert ws[..i + 1][..i] == ws[..i];
        match ws[i]
        case Install(slot, cred) => backups := backups[slot := cred];
        case Remove(slot) => backups := backups - {slot};
      }
      assert ws[..|ws|] == ws;
    }

    method ConsumeLocked(slot: Slot, snapshot: Cred, io: PassIO) returns (outcome: GrantOutcome)
      modifies this
      ensures Contents() == GateSpec.ConsumeLocked(old(Contents()), slot, snapshot, io).disk
      ensures outcome == GateSpec.ConsumeLocked(old(Contents()), slot, snapshot, io).outcome
    {
      var kind, current := GateInput(slot, io.input);
      if kind != NoError || current.None? {
        return GrantOutcome(None, kind, None, false);
      }
      var input := current.value;
      var consumedFp := Fingerprint(input);
      var decision := Decide(input, snapshot, io.nowMs);
      if decision.AlreadyFresh? {
        return GrantOutcome(Some(input), NoError, Some(consumedFp), false);
      }
      if decision.NoPost? {
        return GrantOutcome(None, decision.kind, Some(consumedFp), false);
      }
      DuringPost(io.during);
      if Classify(io.reply) != NoError {
        return GrantOutcome(None, Classify(io.reply), Some(consumedFp), false);
      }
      var successor := Successor(input, io.reply, io.nowMs);
      var cred, reason := PersistSuccessor(slot, successor, consumedFp, io.persist);
      if reason.Some? && Demoting(reason.value) {
        return GrantOutcome(Some(cred), Transient, Some(consumedFp), !reason.value.Unpersisted?);
      }
      outcome := GrantOutcome(Some(cred), NoError, Some(consumedFp), false);
    }
  }

  /** What the scan has established about the first i ids. */
  ghost predicate ScannedTo(
    d: Disk, slot: Slot, fp: Fp, io: InputIO, ids: seq<RowId>, i: nat, retire: seq<RowId>, deferred: bool)
  {
    && i <= |ids|
    && Ascending(ids)
    && (forall id :: id in ids <==> id in d.rows && d.rows[id].slot == slot)
    && (forall id :: id in ids[..i] ==> !Adoptable(d, slot, fp, io.unreadable, id))
    && (deferred <==> exists id :: id in ids[..i] && d.Keyed(id, slot, fp) && id in io.unreadable)
    && Ascending(retire)
    && (forall id :: id in retire <==> id in ids[..i] && Retirable(d, slot, fp, io.unreadable, id))
  }

  lemma ScanStep(
    d: Disk, slot: Slot, fp: Fp, io: InputIO, ids: seq<RowId>, i: nat, retire: seq<RowId>, deferred: bool)
    requires ScannedTo(d, slot, fp, io, ids, i, retire, deferred) && i < |ids|
    requires !Adoptable(d, slot, fp, io.unreadable, ids[i])
    ensures
      ScannedTo(d, slot, fp, io, ids, i + 1,
                if Retirable(d, slot, fp, io.unreadable, ids[i]) then retire + [ids[i]] else retire,
                deferred || (d.Keyed(ids[i], slot, fp) && ids[i] in io.unreadable))
  {
    var id := ids[i];
    assert ids[..i + 1] == ids[..i] + [id];
    forall r | r in retire ensures r < id {
      var k :| 0 <= k < i && ids[..i][k] == r;
    }
    AppendAscending(retire, id);
    assert id in ids[..i + 1];
  }

  lemma FirstAdoptable(
    d: Disk, slot: Slot, fp: Fp, io: InputIO, ids: seq<RowId>, i: nat, retire: seq<RowId>, deferred: bool)
    requires io.manifest.ManifestOk?
    requires ScannedTo(d, slot, fp, io, ids, i, retire, deferred) && i < |ids|
    requires Adoptable(d, slot, fp, io.unreadable, ids[i])
    ensures Scanned(Some(ids[i]), retire) == GateSpec.ScanStash(d, slot, fp, io)
  {
    forall id | id in ids ensures id in ids[..i] <==> id < ids[i] {
      var k :| 0 <= k < |ids| && ids[k] == id;
      if k < i {
        assert ids[..i][k] == id;
      }
    }
    ScanUnique(d, slot, fp, io, Scanned(Some(ids[i]), retire));
  }

  lemma NoneAdoptable(
    d: Disk, slot: Slot, fp: Fp, io: InputIO, ids: seq<RowId>, retire: seq<RowId>, deferred: bool)
    requires io.manifest.ManifestOk?
    requires ScannedTo(d, slot, fp, io, ids, |ids|, retire, deferred)
    ensures (if deferred then ScanFailed else Scanned(None, retire)) == GateSpec.ScanStash(d, slot, fp, io)
  {
    assert ids[..|ids|] == ids;
    ScanUnique(d, slot, fp, io, if deferred then ScanFailed else Scanned(None, retire));
  }
}
