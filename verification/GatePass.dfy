// What one pass of the gate does, whatever fails and whoever interferes.

module GatePass {
  import opened Base
  import opened OAuth
  import opened Ids
  import opened GateSpec

  /** r is d with some rows and entries of ids removed and nothing else changed. */
  ghost predicate OnlyRemoved(d: Disk, r: Disk, ids: seq<RowId>) {
    && r.backups == d.backups
    && (forall id :: id in r.rows ==> id in d.rows && r.rows[id] == d.rows[id])
    && (forall id :: id in r.entries ==> id in d.entries && r.entries[id] == d.entries[id])
    && (forall id :: id in d.rows && id !in ids ==> id in r.rows)
    && (forall id :: id in d.entries && id !in ids ==> id in r.entries)
  }

  lemma {:induction false} RetireAllOnlyRemoves(d: Disk, ids: seq<RowId>, purge: map<RowId, PurgeIO>)
    ensures OnlyRemoved(d, RetireAll(d, ids, purge), ids)
    decreases |ids|
  {
    if ids != [] {
      var p := Purge(d, ids[0], FateOf(purge, ids[0]));
      assert ids == [ids[0]] + ids[1..];
      assert OnlyRemoved(d, p.disk, ids);
      if p.ok {
        RetireAllOnlyRemoves(p.disk, ids[1..], purge);
      }
    }
  }

  lemma {:induction false} RetireAllPurges(d: Disk, ids: seq<RowId>)
    requires Ascending(ids)
    requires forall id :: id in ids ==> id in d.rows
    ensures forall id :: id in ids ==> id !in RetireAll(d, ids, map[]).rows
    decreases |ids|
  {
    if ids != [] {
      var p := Purge(d, ids[0], CLEAN_PURGE);
      assert ids == [ids[0]] + ids[1..];
      forall id | id in ids[1..] ensures id != ids[0] {
        var k :| 0 <= k < |ids[1..]| && ids[1..][k] == id;
      }
      RetireAllPurges(p.disk, ids[1..]);
      RetireAllOnlyRemoves(p.disk, ids[1..], map[]);
    }
  }

  /** A scanned row was adopted: its bytes are what the pass made the slot's value. */
  ghost predicate AdoptedRow(d: Disk, slot: Slot, io: InputIO, id: RowId) {
    && io.lock && io.readable && slot in d.backups
    && Adoptable(d, slot, Fingerprint(d.backups[slot]), io.unreadable, id)
    && ScanStash(d, slot, Fingerprint(d.backups[slot]), io).Scanned?
    && ScanStash(d, slot, Fingerprint(d.backups[slot]), io).found == Some(id)
    && io.adopt.Stored?
  }

  /** The rows a pass may touch at all. */
  ghost predicate Dead(d: Disk, slot: Slot, io: InputIO, id: RowId) {
    && id in d.rows && d.rows[id].slot == slot && slot in d.backups
    && (|| (id !in d.entries && id !in io.unreadable)
        || (d.rows[id].reason.CasConflict? && d.rows[id].consumedFp != Some(Fingerprint(d.backups[slot])))
        || AdoptedRow(d, slot, io, id))
  }

  /** The backup a pass leaves in its slot, before a session profile is considered. */
  ghost predicate AdvancedTo(d: Disk, slot: Slot, io: InputIO, cred: Cred) {
    slot in d.backups
    && (|| cred == d.backups[slot]
        || exists id :: Adoptable(d, slot, Fingerprint(d.backups[slot]), io.unreadable, id) && cred == d.entries[id])
  }

  /**
   * r is d less only rows and entries that were adopted, have no bytes, or
   * record a conflict with a generation the slot has left; no other slot's rows
   * or backup moved, and the slot stays present or absent.
   */
  ghost predicate OnlyDeadGone(d: Disk, r: Disk, slot: Slot, io: InputIO) {
    && (forall id :: id in r.rows ==> id in d.rows && r.rows[id] == d.rows[id])
    && (forall id :: id in r.entries ==> id in d.entries && r.entries[id] == d.entries[id])
    && (forall id :: id in d.rows && id !in r.rows ==> Dead(d, slot, io, id))
    && (forall id :: id in d.entries && id !in r.entries ==> Dead(d, slot, io, id))
    && (forall s :: s != slot ==> (s in r.backups <==> s in d.backups))
    && (forall s :: s != slot && s in d.backups ==> r.backups[s] == d.backups[s])
    && (slot in r.backups <==> slot in d.backups)
  }

  /** Without a match only the dead rows go. */
  lemma ScanRetiresOnlyDead(d: Disk, slot: Slot, io: InputIO, retire: seq<RowId>)
    requires io.lock && io.readable && slot in d.backups
    requires ScanStash(d, slot, Fingerprint(d.backups[slot]), io) == Scanned(None, retire)
    ensures OnlyDeadGone(d, RetireAll(d, retire, io.purge), slot, io)
  {
    RetireAllOnlyRemoves(d, retire, io.purge);
    assert forall id :: id in retire ==> Dead(d, slot, io, id);
  }

  /** With one they go after it was written back, and it goes last. */
  lemma AdoptionRetiresOnlyDead(d: Disk, slot: Slot, io: InputIO, found: RowId, retire: seq<RowId>)
    requires io.lock && io.readable && slot in d.backups && io.adopt.Stored?
    requires ScanStash(d, slot, Fingerprint(d.backups[slot]), io) == Scanned(Some(found), retire)
    ensures OnlyDeadGone(d, RetireAll(Write(d, slot, d.entries[found], io.adopt), retire + [found], io.purge), slot, io)
  {
    RetireAllOnlyRemoves(Write(d, slot, d.entries[found], io.adopt), retire + [found], io.purge);
    assert forall id :: id in retire ==> Dead(d, slot, io, id);
    assert AdoptedRow(d, slot, io, found);
  }

  lemma AdoptRetiresOnlyDead(d: Disk, slot: Slot, io: InputIO)
    requires io.lock && io.readable && slot in d.backups
    ensures OnlyDeadGone(d, Adopt(d, slot, d.backups[slot], io).disk, slot, io)
  {
    match ScanStash(d, slot, Fingerprint(d.backups[slot]), io)
    case ScanFailed =>
    case Scanned(None, retire) => ScanRetiresOnlyDead(d, slot, io, retire);
    case Scanned(Some(found), retire) =>
      if io.adopt.Stored? {
        AdoptionRetiresOnlyDead(d, slot, io, found, retire);
      }
  }

  /** Retirement is safe: a locked re-read, whatever fails in it, only ever retires dead rows. */
  lemma RetiresOnlyDead(d: Disk, slot: Slot, io: InputIO)
    ensures OnlyDeadGone(d, GateInput(d, slot, io).disk, slot, io)
  {
    if io.lock && io.readable && slot in d.backups {
      AdoptRetiresOnlyDead(d, slot, io);
    }
  }

  /**
   * What the re-read hands on: nothing when it defers; otherwise the slot's
   * value, unless a profile was written and could not be read back.
   */
  lemma InputCurrent(d: Disk, slot: Slot, io: InputIO)
    ensures var r := GateInput(d, slot, io);
      && (slot in d.backups ==>
            && slot in r.disk.backups
            && (if TookProfile(d, slot, io) then Some(r.disk.backups[slot]) == io.profile
                else AdvancedTo(d, slot, io, r.disk.backups[slot])))
      && (r.kind == NoError ==>
            && r.current.Some?
            && slot in d.backups
            && (r.current == Some(r.disk.backups[slot])
                || (TookProfile(d, slot, io) && AdvancedTo(d, slot, io, r.current.value))))
  {
    if io.lock && io.readable && slot in d.backups {
      match ScanStash(d, slot, Fingerprint(d.backups[slot]), io)
      case ScanFailed =>
      case Scanned(None, retire) =>
        RetireAllOnlyRemoves(d, retire, io.purge);
      case Scanned(Some(id), retire) =>
        RetireAllOnlyRemoves(Write(d, slot, d.entries[id], io.adopt), retire + [id], io.purge);
    }
  }

  /**
   * A slot whose generation has a live row is never handed on as it stands:
   * the pass adopts a row of that generation, or defers.
   */
  lemma LiveRowIsAdopted(d: Disk, slot: Slot, io: InputIO, id: RowId)
    requires slot in d.backups && d.Live(id, slot, Fingerprint(d.backups[slot]))
    ensures var r := GateInput(d, slot, io);
      r.kind == NoError ==>
        exists j :: AdoptedRow(d, slot, io, j)
          && (r.current == Some(d.entries[j]) || (TookProfile(d, slot, io) && r.current == io.profile))
          && slot in r.disk.backups
          && (r.disk.backups[slot] == d.entries[j] || TookProfile(d, slot, io))
  {
    var fp := Fingerprint(d.backups[slot]);
    if io.lock && io.readable {
      assert Adoptable(d, slot, fp, io.unreadable, id) || (d.Keyed(id, slot, fp) && id in io.unreadable);
      match ScanStash(d, slot, fp, io)
      case ScanFailed =>
      case Scanned(None, retire) =>
      case Scanned(Some(j), retire) =>
        RetireAllOnlyRemoves(Write(d, slot, d.entries[j], io.adopt), retire + [j], io.purge);
        if io.adopt.Stored? {
          assert AdoptedRow(d, slot, io, j);
        }
    }
  }

  /** An adopted row's bytes are what the pass leaves in the slot, unless a profile was newer still. */
  lemma AdoptedMovesSlot(d: Disk, slot: Slot, io: InputIO, id: RowId)
    requires AdoptedRow(d, slot, io, id)
    ensures var r := GateInput(d, slot, io);
      slot in r.disk.backups && (r.disk.backups[slot] == d.entries[id] || TookProfile(d, slot, io))
  {
    var retire := ScanStash(d, slot, Fingerprint(d.backups[slot]), io).retire;
    RetireAllOnlyRemoves(Write(d, slot, d.entries[id], io.adopt), retire + [id], io.purge);
  }

  /** A pass in which every foreign call on the backup, the stash and the roster succeeds. */
  ghost predicate Unhindered(d: Disk, slot: Slot, io: InputIO) {
    && io.lock && io.readable && io.manifest.ManifestOk? && io.adopt.Stored? && io.purge == map[]
    && io.roster
    && (forall id :: id in d.rows && d.rows[id].slot == slot ==> id !in io.unreadable)
  }

  /** The session profile holds a later generation than c, and its write changes the slot. */
  predicate Takes(io: InputIO, c: Cred) {
    && io.profile.Some? && io.profileRead && !io.profileWrite.NotStored?
    && ProfileAhead(io.profile.value, c)
  }

  /** What a pass that has c leaves in the slot. */
  function Left(io: InputIO, c: Cred): Cred {
    if Takes(io, c) then io.profile.value else c
  }

  /** What it hands on: the profile only when its write succeeded and was read back. */
  function Handed(io: InputIO, c: Cred): Cred {
    if Takes(io, c) && io.profileWrite.Stored? && io.reread then io.profile.value else c
  }

  /** The row an unhindered pass adopts. */
  ghost predicate Earliest(d: Disk, slot: Slot, fp: Fp, id: RowId) {
    d.Live(id, slot, fp) && forall j :: d.Live(j, slot, fp) ==> id <= j
  }

  lemma UnhinderedScan(d: Disk, slot: Slot, io: InputIO)
    requires slot in d.backups && Unhindered(d, slot, io)
    ensures var fp := Fingerprint(d.backups[slot]);
      var s := ScanStash(d, slot, fp, io);
      s.Scanned? && forall id :: Earliest(d, slot, fp, id) <==> s.found == Some(id)
  {
    var fp := Fingerprint(d.backups[slot]);
    assert forall id :: d.Live(id, slot, fp) <==> Adoptable(d, slot, fp, io.unreadable, id);
  }

  /** The profile's part of a re-read. */
  lemma InputAfterAdopt(d: Disk, slot: Slot, io: InputIO)
    requires io.lock && io.readable && slot in d.backups && io.roster
    requires Adopt(d, slot, d.backups[slot], io).kind == NoError
    ensures var a := Adopt(d, slot, d.backups[slot], io);
      var c := if a.cred.Some? then a.cred.value else d.backups[slot];
      GateInput(d, slot, io) ==
        Input(if Takes(io, c) then a.disk.(backups := a.disk.backups[slot := io.profile.value]) else a.disk,
              NoError, Some(Handed(io, c)))
  {
  }

  lemma UnhinderedAdoption(d: Disk, slot: Slot, io: InputIO, id: RowId)
    requires slot in d.backups && Unhindered(d, slot, io)
    requires d.Live(id, slot, Fingerprint(d.backups[slot]))
    ensures var a := Adopt(d, slot, d.backups[slot], io);
      && a.kind == NoError
      && exists j :: Earliest(d, slot, Fingerprint(d.backups[slot]), j) && j !in a.disk.rows
           && a.cred == Some(d.entries[j]) && a.disk.backups == d.backups[slot := d.entries[j]]
  {
    var fp := Fingerprint(d.backups[slot]);
    UnhinderedScan(d, slot, io);
    assert Adoptable(d, slot, fp, io.unreadable, id);
    var scan := ScanStash(d, slot, fp, io);
    var j := scan.found.value;
    assert Earliest(d, slot, fp, j);
    var w := Write(d, slot, d.entries[j], io.adopt);
    var ids := scan.retire + [j];
    AppendAscending(scan.retire, j);
    RetireAllPurges(w, ids);
    RetireAllOnlyRemoves(w, ids, map[]);
    assert j in ids;
  }

  /** An unhindered pass over a live row writes that row's bytes back, or a later profile, and retires the row. */
  lemma UnhinderedAdopts(d: Disk, slot: Slot, io: InputIO, id: RowId)
    requires slot in d.backups && Unhindered(d, slot, io)
    requires d.Live(id, slot, Fingerprint(d.backups[slot]))
    ensures var r := GateInput(d, slot, io);
      && r.kind == NoError
      && exists j :: Earliest(d, slot, Fingerprint(d.backups[slot]), j) && j !in r.disk.rows
           && r.current == Some(Handed(io, d.entries[j]))
           && r.disk.backups == d.backups[slot := Left(io, d.entries[j])]
  {
    UnhinderedAdoption(d, slot, io, id);
    InputAfterAdopt(d, slot, io);
  }

  /** Without a live row it has the slot's own value. */
  lemma UnhinderedKeeps(d: Disk, slot: Slot, io: InputIO)
    requires slot in d.backups && Unhindered(d, slot, io)
    requires forall id :: !d.Live(id, slot, Fingerprint(d.backups[slot]))
    ensures var r := GateInput(d, slot, io);
      && r.kind == NoError && r.current == Some(Handed(io, d.backups[slot]))
      && r.disk.backups == d.backups[slot := Left(io, d.backups[slot])]
  {
    UnhinderedScan(d, slot, io);
    var retire := ScanStash(d, slot, Fingerprint(d.backups[slot]), io).retire;
    RetireAllOnlyRemoves(d, retire, io.purge);
    assert Adopt(d, slot, d.backups[slot], io) == Adopted(RetireAll(d, retire, map[]), NoError, None);
    InputAfterAdopt(d, slot, io);
    assert d.backups == d.backups[slot := d.backups[slot]];
  }

  /** No profile is handed on over the bytes of the earliest live row, or the slot's own without one. */
  ghost predicate NoProfileHanded(d: Disk, slot: Slot, io: InputIO)
    requires slot in d.backups
  {
    var fp := Fingerprint(d.backups[slot]);
    && (forall id :: Earliest(d, slot, fp, id) ==> Handed(io, d.entries[id]) == d.entries[id])
    && ((forall id :: !d.Live(id, slot, fp)) ==> Handed(io, d.backups[slot]) == d.backups[slot])
  }

  /**
   * Exactly when an unhindered pass hands the slot's own generation to the POST:
   * no profile is handed on, and no live row of that generation is left or the
   * earliest one parks a document that still carries the same refresh token; or
   * the profile handed on carries it.
   */
  lemma OwnGenerationIff(d: Disk, slot: Slot, io: InputIO)
    requires slot in d.backups && Unhindered(d, slot, io)
    ensures var r := GateInput(d, slot, io);
      var fp := Fingerprint(d.backups[slot]);
      && r.kind == NoError && r.current.Some? && slot in r.disk.backups
      && (r.current == Some(r.disk.backups[slot]) || Some(r.disk.backups[slot]) == io.profile)
      && (Fingerprint(r.current.value) == fp <==>
            if NoProfileHanded(d, slot, io)
            then forall id :: Earliest(d, slot, fp, id) ==> Fingerprint(d.entries[id]) == fp
            else Fingerprint(io.profile.value) == fp)
  {
    var fp := Fingerprint(d.backups[slot]);
    UnhinderedScan(d, slot, io);
    if id :| d.Live(id, slot, fp) {
      UnhinderedAdopts(d, slot, io, id);
    } else {
      UnhinderedKeeps(d, slot, io);
    }
  }

  // --- after a successful POST ---------------------------------------------

  lemma {:induction false} InterfereKeepsStash(d: Disk, ws: seq<Writer>)
    ensures Interfere(d, ws).rows == d.rows && Interfere(d, ws).entries == d.entries
    decreases |ws|
  {
    if ws != [] {
      InterfereKeepsStash(d, ws[..|ws| - 1]);
    }
  }

  ghost predicate InRow(d: Disk, slot: Slot, fp: Fp, cred: Cred) {
    exists id :: d.Live(id, slot, fp) && d.entries[id] == cred
  }

  ghost predicate InSlot(d: Disk, slot: Slot, cred: Cred) {
    slot in d.backups && d.backups[slot] == cred
  }

  /** A stash call mints an id that no row or entry file has. */
  predicate NewId(d: Disk, fate: StashFate) {
    fate.NothingWritten? || (fate.id !in d.rows && fate.id !in d.entries)
  }

  /** The one corner the outcome type calls unrecoverable. */
  predicate ReportedLost(o: GrantOutcome) {
    o.err == Transient && o.cred.Some? && !o.stashed
  }

  ghost predicate Kept(d: Disk, slot: Slot, fp: Fp, cred: Cred) {
    InSlot(d, slot, cred) || InRow(d, slot, fp, cred)
  }

  lemma ParkKeeps(d: Disk, slot: Slot, successor: Cred, fp: Fp, reason: Reason, fate: StashFate, now: Cred)
    ensures var p := Park(d, slot, successor, fp, reason, fate, now);
      && p.disk.backups == d.backups && p.cred == now
      && (p.reason == Some(reason) || p.reason == Some(Unpersisted))
      && (!reason.Unpersisted? && p.reason == Some(reason) ==> InRow(p.disk, slot, fp, successor))
      && (p.reason == Some(Unpersisted) && !reason.Unpersisted? && NewId(d, fate)
          && (forall id :: id in d.entries ==> d.entries[id] != successor)
          ==> !InRow(p.disk, slot, fp, successor))
  {
    var p := Park(d, slot, successor, fp, reason, fate, now);
    if fate.RowWritten? || fate.ManifestReplaced? {
      assert p.disk.Live(fate.id, slot, fp);
    }
  }

  lemma PersistKeeps(d: Disk, slot: Slot, successor: Cred, fp: Fp, io: PersistIO)
    ensures var p := Persist(d, slot, successor, fp, io);
      var o := Finish(p, fp);
      && (o.err == NoError || (o.err == Transient && o.stashed) ==> Kept(p.disk, slot, fp, successor))
      && (o.err == Transient && o.stashed ==> InRow(p.disk, slot, fp, successor))
      && (ReportedLost(o) && !io.write.StoredButFailed? && NewId(d, io.stash)
          && (forall id :: id in d.entries ==> d.entries[id] != successor)
          && !InSlot(d, slot, successor)
          ==> !Kept(p.disk, slot, fp, successor))
      && (slot !in d.backups || Fingerprint(d.backups[slot]) != fp ==> p.disk.backups == d.backups)
      && (p.disk.backups == d.backups || p.disk.backups == d.backups[slot := successor])
      && (p.disk.backups == d.backups && (slot !in d.backups || Fingerprint(d.backups[slot]) != fp) ==>
            InRow(p.disk, slot, fp, successor) || ReportedLost(o))
  {
    var w := Write(d, slot, successor, io.write);
    ParkKeeps(d, slot, successor, fp, PersistLockFailed, io.stash, successor);
    ParkKeeps(d, slot, successor, fp, StoreUnreadable, io.stash, successor);
    ParkKeeps(d, slot, successor, fp, SlotRemoved, io.stash, successor);
    if slot in d.backups {
      ParkKeeps(d, slot, successor, fp, CasConflict, io.stash, d.backups[slot]);
      ParkKeeps(w, slot, successor, fp, PersistFailed, io.stash, successor);
    }
  }

  /** The disk when the reply arrives. */
  ghost function Seen(d: Disk, slot: Slot, io: PassIO): Disk {
    Interfere(GateInput(d, slot, io.input).disk, io.during)
  }

  lemma PassPersists(d: Disk, slot: Slot, snapshot: Cred, io: PassIO)
    requires ConsumeLocked(d, slot, snapshot, io).successor.Some?
    ensures var p := ConsumeLocked(d, slot, snapshot, io);
      && p.posted.Some?
      && var fp := Fingerprint(p.posted.value);
      && var q := Persist(Seen(d, slot, io), slot, p.successor.value, fp, io.persist);
      && p.disk == q.disk && p.outcome == Finish(q, fp)
  {
  }

  /**
   * A spent grant's successor is never silently lost. Success means it is the
   * slot's value or parked under the generation it superseded; transient and
   * stashed means parked; when it is nowhere the pass says so. For a successor
   * nobody held before, that report is exact, unless a backup write failed
   * after replacing what readers see.
   */
  lemma SuccessorNeverSilentlyLost(d: Disk, slot: Slot, snapshot: Cred, io: PassIO)
    requires ConsumeLocked(d, slot, snapshot, io).successor.Some?
    ensures var p := ConsumeLocked(d, slot, snapshot, io);
      var s := p.successor.value;
      && p.posted.Some?
      && var fp := Fingerprint(p.posted.value);
      && p.outcome.consumedFp == Some(fp) && p.outcome.cred.Some?
      && (p.outcome.err == NoError || p.outcome.err == Transient)
      && (p.outcome.err == NoError ==> Kept(p.disk, slot, fp, s))
      && (p.outcome.err == Transient && p.outcome.stashed ==> InRow(p.disk, slot, fp, s))
      && (!Kept(p.disk, slot, fp, s) ==> ReportedLost(p.outcome))
      && (&& !io.persist.write.StoredButFailed?
          && NewId(Seen(d, slot, io), io.persist.stash)
          && (forall id :: id in Seen(d, slot, io).entries ==> Seen(d, slot, io).entries[id] != s)
          && !InSlot(Seen(d, slot, io), slot, s)
          ==> (ReportedLost(p.outcome) <==> !Kept(p.disk, slot, fp, s)))
  {
    PassPersists(d, slot, snapshot, io);
    var p := ConsumeLocked(d, slot, snapshot, io);
    PersistKeeps(Seen(d, slot, io), slot, p.successor.value, Fingerprint(p.posted.value), io.persist);
  }

  /**
   * Compare-and-swap: a lineage installed while the POST was in flight is never
   * overwritten, a slot emptied meanwhile is never recreated, and in both cases
   * the successor is parked or the pass reports it lost. The persist changes no
   * backup but the slot's, and that one only to the successor.
   */
  lemma CompareAndSwap(d: Disk, slot: Slot, snapshot: Cred, io: PassIO)
    requires ConsumeLocked(d, slot, snapshot, io).successor.Some?
    ensures var p := ConsumeLocked(d, slot, snapshot, io);
      var s := p.successor.value;
      var seen := Seen(d, slot, io).backups;
      && p.posted.Some?
      && var fp := Fingerprint(p.posted.value);
      && (p.disk.backups == seen || p.disk.backups == seen[slot := s])
      && (slot !in seen || Fingerprint(seen[slot]) != fp ==>
            p.disk.backups == seen && (InRow(p.disk, slot, fp, s) || ReportedLost(p.outcome)))
      && (&& slot in seen && Fingerprint(seen[slot]) == fp
          && io.persist.lock && io.persist.readable && !io.persist.absent && io.persist.write.Stored?
          ==> p.disk == Seen(d, slot, io).(backups := seen[slot := s]) && p.outcome.err == NoError)
  {
    PassPersists(d, slot, snapshot, io);
    var p := ConsumeLocked(d, slot, snapshot, io);
    PersistKeeps(Seen(d, slot, io), slot, p.successor.value, Fingerprint(p.posted.value), io.persist);
  }

  /**
   * Exactly when a pass reports success although the slot still holds the
   * generation it spent: the successor was parked as if the slot were gone. The
   * next pass adopts it; a caller that reads the slot again before then does not
   * see what the outcome promised.
   */
  lemma SuccessLeavesSpentIff(d: Disk, slot: Slot, snapshot: Cred, io: PassIO)
    requires ConsumeLocked(d, slot, snapshot, io).successor.Some?
    ensures var p := ConsumeLocked(d, slot, snapshot, io);
      var seen := Seen(d, slot, io).backups;
      && p.posted.Some?
      && var fp := Fingerprint(p.posted.value);
      Fingerprint(p.successor.value) != fp ==>
        (p.outcome.err == NoError && slot in p.disk.backups && Fingerprint(p.disk.backups[slot]) == fp <==>
           && slot in seen && Fingerprint(seen[slot]) == fp
           && io.persist.lock && io.persist.readable && io.persist.absent
           && (io.persist.stash.RowWritten? || io.persist.stash.ManifestReplaced?))
  {
    PassPersists(d, slot, snapshot, io);
  }

  /** A re-read that finds nothing to adopt: no row of the slot's generation, and no profile ahead of it. */
  ghost predicate NothingNewer(d: Disk, slot: Slot, io: InputIO) {
    && slot in d.backups && io.lock && io.readable && io.roster && io.manifest.ManifestOk?
    && (forall id :: !d.Keyed(id, slot, Fingerprint(d.backups[slot])))
    && !(io.profile.Some? && io.profileRead && ProfileAhead(io.profile.value, d.backups[slot]))
  }

  lemma NothingNewerKeeps(d: Disk, slot: Slot, io: InputIO)
    requires NothingNewer(d, slot, io)
    ensures var r := GateInput(d, slot, io);
      r.kind == NoError && r.current == Some(d.backups[slot]) && r.disk.backups == d.backups
  {
    var s := ScanStash(d, slot, Fingerprint(d.backups[slot]), io);
    RetireAllOnlyRemoves(d, s.retire, io.purge);
  }

  /**
   * The refresh happens once for all its callers. After a pass that stored its
   * successor, a second pass by a caller that still has an older access token
   * returns that successor and POSTs nothing until five minutes before its
   * lifetime has passed, and from then on POSTs it.
   */
  lemma SecondPassReturns(d: Disk, slot: Slot, snapshot: Cred, io: PassIO, late: Cred, io2: PassIO)
    requires var p := ConsumeLocked(d, slot, snapshot, io);
      && p.successor.Some? && slot in p.disk.backups && p.disk.backups[slot] == p.successor.value
      && NothingNewer(p.disk, slot, io2.input)
    requires io.reply.Granted? && io.reply.expiresIn > 0 && io.nowMs > 0
    requires late.Blob? && late.access != "" && late.access != io.reply.access
    ensures var p := ConsumeLocked(d, slot, snapshot, io);
      var q := ConsumeLocked(p.disk, slot, late, io2);
      if io2.nowMs < io.nowMs + io.reply.expiresIn * 1000 - 300_000
      then && q.posted.None? && q.outcome.err == NoError && q.outcome.cred == p.successor
           && q.disk.backups == p.disk.backups
      else q.posted == p.successor
  {
    var p := ConsumeLocked(d, slot, snapshot, io);
    NothingNewerKeeps(p.disk, slot, io2.input);
    SuccessorExpiresIff(p.posted.value, io.reply, io.nowMs, io2.nowMs);
  }

  // --- completeness of retirement -------------------------------------------

  lemma AdoptionRetires(d: Disk, slot: Slot, io: InputIO, id: RowId)
    requires slot in d.backups && Unhindered(d, slot, io)
    requires var s := ScanStash(d, slot, Fingerprint(d.backups[slot]), io); s.Scanned? && id in s.retire
    ensures var a := Adopt(d, slot, d.backups[slot], io); a.kind == NoError && id !in a.disk.rows
  {
    var s := ScanStash(d, slot, Fingerprint(d.backups[slot]), io);
    if s.found.Some? {
      var w := Write(d, slot, d.entries[s.found.value], io.adopt);
      AppendAscending(s.retire, s.found.value);
      RetireAllPurges(w, s.retire + [s.found.value]);
      assert id in s.retire + [s.found.value];
    } else {
      RetireAllPurges(d, s.retire);
    }
  }

  /** A pass that can write keeps no dead row of its slot that sorts before the row it adopts. */
  lemma UnhinderedRetires(d: Disk, slot: Slot, io: InputIO, id: RowId)
    requires slot in d.backups && Unhindered(d, slot, io)
    requires id in d.rows && d.rows[id].slot == slot
    requires forall j :: d.Live(j, slot, Fingerprint(d.backups[slot])) ==> id < j
    requires || id !in d.entries
             || (d.rows[id].reason.CasConflict? && d.rows[id].consumedFp != Some(Fingerprint(d.backups[slot])))
    ensures id !in GateInput(d, slot, io).disk.rows
  {
    UnhinderedScan(d, slot, io);
    assert Retirable(d, slot, Fingerprint(d.backups[slot]), io.unreadable, id);
    AdoptionRetires(d, slot, io, id);
    InputAfterAdopt(d, slot, io);
  }

  /** Retiring stops where a file cannot go or the manifest is locked: nothing after is touched. */
  lemma {:induction false} RetireStops(d: Disk, ids: seq<RowId>, purge: map<RowId, PurgeIO>, k: nat, id: RowId)
    requires k < |ids| && ids[k] in purge && (purge[ids[k]].fate.FileStuck? || purge[ids[k]].fate.ManifestBusy?)
    requires id !in ids[..k + 1]
    ensures var r := RetireAll(d, ids, purge);
      && (id in r.rows <==> id in d.rows) && (id in r.entries <==> id in d.entries)
    decreases |ids|
  {
    var p := Purge(d, ids[0], FateOf(purge, ids[0]));
    assert ids[0] in ids[..k + 1];
    if k > 0 && p.ok {
      forall j | 0 <= j < k ensures ids[1..][..k][j] == ids[..k + 1][j + 1] {
      }
      assert id !in ids[1..][..k];
      RetireStops(p.disk, ids[1..], purge, k - 1, id);
    }
  }

  // --- what a pass reports --------------------------------------------------

  /** The stash cannot be relied on: its manifest, or the only rows of the slot's generation, cannot be read. */
  ghost predicate StashUnread(d: Disk, slot: Slot, io: InputIO)
    requires slot in d.backups
  {
    var fp := Fingerprint(d.backups[slot]);
    match io.manifest
    case ManifestUnreadable => true
    case ManifestCorrupt(strays) => d.entries != map[] || strays
    case ManifestOk =>
      && (forall id :: d.Live(id, slot, fp) ==> id in io.unreadable)
      && exists id :: d.Keyed(id, slot, fp) && id in io.unreadable
  }

  /** Some row of the slot's generation is adopted. */
  ghost predicate HasRow(d: Disk, slot: Slot, io: InputIO)
    requires slot in d.backups
  {
    io.manifest.ManifestOk? && exists id :: d.Live(id, slot, Fingerprint(d.backups[slot])) && id !in io.unreadable
  }

  /** Why a locked re-read defers, exactly. */
  lemma InputKindIff(d: Disk, slot: Slot, io: InputIO)
    ensures var r := GateInput(d, slot, io);
      var there := io.lock && io.readable && slot in d.backups;
      && (r.kind == StashUnreadable <==> there && StashUnread(d, slot, io))
      && (r.kind == NoError <==>
            there && !StashUnread(d, slot, io) && (HasRow(d, slot, io) ==> io.adopt.Stored?) && io.roster)
      && (r.kind == NoError || r.kind == StashUnreadable || r.kind == Transient)
      && (r.current.Some? <==> r.kind == NoError)
  {
    if io.lock && io.readable && slot in d.backups {
      var fp := Fingerprint(d.backups[slot]);
      var s := ScanStash(d, slot, fp, io);
      assert IsScan(d, slot, fp, io, s);
      assert forall id :: Adoptable(d, slot, fp, io.unreadable, id) <==> d.Live(id, slot, fp) && id !in io.unreadable;
    }
  }

  /** The refresh the caller wanted has happened: another, unexpired access token is there. */
  predicate HappenedAlready(input: Cred, snapshot: Cred, nowMs: int) {
    && input.Blob? && input.access != "" && snapshot.Blob? && snapshot.access != ""
    && snapshot.access != input.access
    && (input.expiresAt == 0 || nowMs < input.expiresAt - 300_000)
  }

  /** When a pass reaches the token endpoint, and what it reports when it does not. */
  lemma UnpostedIff(d: Disk, slot: Slot, snapshot: Cred, io: PassIO)
    ensures var i := GateInput(d, slot, io.input);
      var p := ConsumeLocked(d, slot, snapshot, io);
      && (p.posted.Some? <==>
            && i.kind == NoError && i.current.Some?
            && !HappenedAlready(i.current.value, snapshot, io.nowMs) && RefreshToken(i.current.value) != "")
      && (p.posted.Some? ==> p.posted == i.current)
      && (p.posted.None? ==>
            && p.successor.None? && p.disk == i.disk && !p.outcome.stashed
            && if i.kind != NoError then p.outcome.err == i.kind && p.outcome.cred.None? && p.outcome.consumedFp.None?
               else
                 && i.current.Some? && p.outcome.consumedFp == Some(Fingerprint(i.current.value))
                 && if HappenedAlready(i.current.value, snapshot, io.nowMs)
                    then p.outcome.err == NoError && p.outcome.cred == i.current
                    else p.outcome.cred.None?
                         && p.outcome.err == if i.current.value.Opaque? then Transient else NoRefreshToken)
  {
    InputKindIff(d, slot, io.input);
  }

  /**
   * What a pass that POSTed reports of a refusal: the errors of section 5.2 of
   * RFC 6749 that end a lineage or a client only with the statuses that go with
   * them, and a transient failure otherwise. The disk is as the writers left it.
   */
  lemma RefusedIff(d: Disk, slot: Slot, snapshot: Cred, io: PassIO)
    requires ConsumeLocked(d, slot, snapshot, io).posted.Some?
    ensures var p := ConsumeLocked(d, slot, snapshot, io);
      var refused := io.reply.Refused? && io.reply.status in {400, 401, 403};
      && (p.successor.Some? <==> io.reply.Granted? && io.reply.access != "")
      && (p.outcome.err == InvalidGrant <==> refused && io.reply.error == "invalid_grant")
      && (p.outcome.err == InvalidClient <==> refused && io.reply.error == "invalid_client")
      && (p.successor.None? ==>
            && p.disk == Seen(d, slot, io)
            && (p.outcome.err == InvalidGrant || p.outcome.err == InvalidClient || p.outcome.err == Transient)
            && p.outcome.cred.None? && !p.outcome.stashed
            && p.outcome.consumedFp == Some(Fingerprint(p.posted.value)))
  {
    if ConsumeLocked(d, slot, snapshot, io).successor.Some? {
      PassPersists(d, slot, snapshot, io);
    }
  }

  /** What became of the slot while the POST was in flight, as the persist finds it. */
  datatype Found = Unlocked | Unread | Gone | Moved | Same

  ghost function FindSlot(d: Disk, slot: Slot, fp: Fp, io: PersistIO): Found {
    if !io.lock then Unlocked else if !io.readable then Unread
    else if io.absent || slot !in d.backups then Gone
    else if Fingerprint(d.backups[slot]) != fp then Moved else Same
  }

  function ReasonFor(found: Found): Reason {
    match found
    case Unlocked => PersistLockFailed
    case Unread => StoreUnreadable
    case Gone => SlotRemoved
    case Moved => CasConflict
    case Same => PersistFailed
  }

  /**
   * What a pass with a successor reports, exactly, and the reason its row
   * carries. It succeeds when the successor was stored, or parked because the
   * slot is gone or has moved on; it hands out the slot's own credential only in
   * the last case.
   */
  lemma PersistOutcomeIff(d: Disk, slot: Slot, snapshot: Cred, io: PassIO)
    requires ConsumeLocked(d, slot, snapshot, io).successor.Some?
    ensures var p := ConsumeLocked(d, slot, snapshot, io);
      && p.posted.Some?
      && var fp := Fingerprint(p.posted.value);
      var found := FindSlot(Seen(d, slot, io), slot, fp, io.persist);
      var stored := found.Same? && io.persist.write.Stored?;
      var parks := io.persist.stash.RowWritten? || io.persist.stash.ManifestReplaced?;
      && (p.outcome.err == NoError <==> stored || (parks && (found.Gone? || found.Moved?)))
      && (p.outcome.stashed <==> parks && !stored && !found.Gone? && !found.Moved?)
      && p.outcome.cred == (if found.Moved? then Some(Seen(d, slot, io).backups[slot]) else p.successor)
      && (parks && !stored ==>
            && io.persist.stash.id in p.disk.rows
            && p.disk.rows[io.persist.stash.id] == Row(slot, ReasonFor(found), Some(fp))
            && (io.persist.stash.ManifestReplaced? ==> forall id :: id in p.disk.rows ==> id == io.persist.stash.id))
      && (io.persist.stash.EntryOnly? && !stored ==>
            && io.persist.stash.id in p.disk.entries && Some(p.disk.entries[io.persist.stash.id]) == p.successor
            && p.disk.rows == Seen(d, slot, io).rows)
  {
    PassPersists(d, slot, snapshot, io);
  }
}
