// The two-tier backup store of one slot (internal/credentials/credentials.go):
// a base64 file that wins over a Keychain item, written by processes that each
// remember when the Keychain failed them.

module BackupSpec {
  import opened Base

  /** A credential file: absent, present without a usable value, or holding one. */
  datatype File<+V> = Missing | Damaged | Holds(value: V)

  /** The two places of one credential: a file and a Keychain item. */
  datatype Tier<+V> = Tier(file: File<V>, item: Option<V>)

  /** A slot's current generation and the previous one. */
  datatype Store<+V> = Store(main: Tier<V>, prev: Tier<V>)

  datatype Read<+V> = Absent | Unreadable | Value(value: V)

  datatype ReadIO = ReadIO(file: bool, item: bool)

  /** A Keychain set that fails may still have landed. */
  datatype SetFate = SetOk | SetFailed | SetFailedButLanded

  datatype WriteIO = WriteIO(
    read: ReadIO, prevSet: SetFate, prevFile: bool, put: SetFate, remove: bool, rewrite: bool, file: bool, drop: bool)

  datatype DeleteIO = DeleteIO(file: bool, prevFile: bool, item: bool, prevItem: bool)

  function ReadTier<V>(t: Tier<V>, usable: bool, io: ReadIO): Read<V> {
    if !io.file then Unreadable
    else if t.file.Holds? then Value(t.file.value)
    else if !usable then Absent
    else if !io.item then Unreadable
    else if t.item.Some? then Value(t.item.value)
    else Absent
  }

  function SetItem<V>(t: Tier<V>, v: V, fate: SetFate): Tier<V> {
    if fate.SetFailed? then t else t.(item := Some(v))
  }

  /** The displaced value goes to the Keychain, or to the .prev file when that set fails. */
  function Retain<V>(s: Store<V>, usable: bool, io: WriteIO): Store<V> {
    var cur := ReadTier(s.main, usable, io.read);
    if !cur.Value? then s
    else
      var t := if usable then SetItem(s.prev, cur.value, io.prevSet) else s.prev;
      if usable && io.prevSet.SetOk? then s.(prev := t)
      else if io.prevFile then s.(prev := t.(file := Holds(cur.value)))
      else s.(prev := t)
  }

  datatype Written<+V> = Written(main: Tier<V>, pinned: bool, ok: bool)

  function WriteTier<V>(t: Tier<V>, v: V, available: bool, pinned: bool, io: WriteIO): Written<V> {
    var usable := available && !pinned;
    var t' := if usable then SetItem(t, v, io.put) else t;
    if usable && io.put.SetOk? then
      if t.file.Missing? || io.remove then Written(t'.(file := Missing), pinned, true)
      else if io.rewrite then Written(t'.(file := Holds(v)), pinned, true)
      else Written(t', pinned, false)
    else
      var pinned' := pinned || usable;
      if !io.file then Written(t', pinned', false)
      else Written(t'.(file := Holds(v), item := if available && io.drop then None else t'.item), pinned', true)
  }

  function Delete<V>(s: Store<V>, available: bool, io: DeleteIO): Store<V> {
    Store(Tier(if io.file then Missing else s.main.file, if available && io.item then None else s.main.item),
          Tier(if io.prevFile then Missing else s.prev.file, if available && io.prevItem then None else s.prev.item))
  }
}

module BackupStore {
  import opened Base
  import opened BackupSpec

  /** What all processes share. */
  class Disk<V> {
    const available: bool
    var main: Tier<V>
    var prev: Tier<V>

    constructor (available: bool)
      ensures this.available == available
      ensures main == prev == Tier(Missing, None)
    {
      this.available := available;
      main, prev := Tier(Missing, None), Tier(Missing, None);
    }
  }

  /** One process; pinned once a Keychain set for a backup failed in it. */
  class Process<V> {
    const disk: Disk<V>
    var pinned: bool

    constructor (disk: Disk<V>)
      ensures this.disk == disk && !pinned
    {
      this.disk := disk;
      pinned := false;
    }

    predicate Usable()
      reads this
    {
      disk.available && !pinned
    }

    ghost function Contents(): Store<V>
      reads disk
    {
      Store(disk.main, disk.prev)
    }

    method ReadStore(t: Tier<V>, io: ReadIO) returns (r: Read<V>)
      ensures r == ReadTier(t, Usable(), io)
    {
      if !io.file {
        return Unreadable;
      }
      if t.file.Holds? {
        return Value(t.file.value);
      }
      // absent or corrupt file
      if Usable() {
        if !io.item {
          return Unreadable;
        }
        if t.item.Some? {
          return Value(t.item.value);
        }
      }
      r := Absent;
    }

    method RetainPrev(io: WriteIO)
      modifies disk`prev
      ensures Contents() == Retain(old(Contents()), Usable(), io)
    {
      var cur := ReadStore(disk.main, io.read);
      if !cur.Value? {
        return;
      }
      if Usable() {
        disk.prev := SetItem(disk.prev, cur.value, io.prevSet);
        if io.prevSet.SetOk? {
          return;
        }
      }
      if io.prevFile {
        disk.prev := disk.prev.(file := Holds(cur.value));
      }
    }

    method WriteBackupKeepSession(v: V, io: WriteIO) returns (ok: bool)
      modifies this`pinned, disk
      ensures Written(disk.main, pinned, ok) == WriteTier(old(disk.main), v, disk.available, old(pinned), io)
      ensures disk.prev == Retain(old(Contents()), old(Usable()), io).prev
    {
      RetainPrev(io);
      if Usable() {
        disk.main := SetItem(disk.main, v, io.put);
        if io.put.SetOk? {
          if !disk.main.file.Missing? && !io.remove {
            if !io.rewrite {
              return false;
            }
            disk.main := disk.main.(file := Holds(v));
            return true;
          }
          disk.main := disk.main.(file := Missing);
          return true;
        }
        pinned := true;
      }
      if !io.file {
        return false;
      }
      disk.main := disk.main.(file := Holds(v));
      if disk.available && io.drop {
        disk.main := disk.main.(item := None);
      }
      ok := true;
    }

    method DeleteBackup(io: DeleteIO)
      modifies disk
      ensures Contents() == Delete(old(Contents()), disk.available, io)
    {
      if io.file {
        disk.main := disk.main.(file := Missing);
      }
      if io.prevFile {
        disk.prev := disk.prev.(file := Missing);
      }
      if disk.available {
        if io.item {
          disk.main := disk.main.(item := None);
        }
        if io.prevItem {
          disk.prev := disk.prev.(item := None);
        }
      }
    }
  }
}

/** Histories of writes by any processes, every Keychain call and file removal failing at will. */
module BackupHistory {
  import opened Base
  import opened BackupSpec

  type Pid = int

  /** A copy remembers the number of the write that made it; 0 is before the history. */
  datatype Copy<V> = Copy(value: V, no: nat)

  datatype Write<V> = Write(pid: Pid, value: V, io: WriteIO)

  /** reported is the number of the last write that returned success, 0 for none. */
  datatype World<V> = World(store: Store<Copy<V>>, pinned: set<Pid>, writes: nat, reported: nat)

  function Do<V>(w: World<V>, available: bool, e: Write<V>): World<V> {
    var no := w.writes + 1;
    var usable := available && e.pid !in w.pinned;
    var r := WriteTier(w.store.main, Copy(e.value, no), available, e.pid in w.pinned, e.io);
    World(Store(r.main, Retain(w.store, usable, e.io).prev),
          if r.pinned then w.pinned + {e.pid} else w.pinned,
          no,
          if r.ok then no else w.reported)
  }

  function DoAll<V>(w: World<V>, available: bool, history: seq<Write<V>>): World<V>
    decreases |history|
  {
    if history == [] then w
    else Do(DoAll(w, available, history[..|history| - 1]), available, history[|history| - 1])
  }

  ghost predicate Inv<V>(w: World<V>) {
    && w.reported <= w.writes
    && (w.store.main.file.Holds? ==> w.store.main.file.value.no >= w.reported)
    && (!w.store.main.file.Holds? && w.store.main.item.Some? ==> w.store.main.item.value.no >= w.reported)
  }

  lemma {:induction false} HistoryKeepsInv<V>(w: World<V>, available: bool, history: seq<Write<V>>)
    requires Inv(w)
    ensures Inv(DoAll(w, available, history))
    decreases |history|
  {
    if history != [] {
      HistoryKeepsInv(w, available, history[..|history| - 1]);
    }
  }

  /**
   * No read is older than the last write that reported success, over any
   * history from any starting contents, by any reader, pinned or not: a read
   * answers with that write or a later one, or with no value.
   */
  lemma ReadsNeverOlder<V>(
    w: World<V>, available: bool, history: seq<Write<V>>, reader: Pid, io: ReadIO)
    requires w.reported == 0
    ensures var w' := DoAll(w, available, history);
      var r := ReadTier(w'.store.main, available && reader !in w'.pinned, io);
      r.Value? ==> r.value.no >= w'.reported
  {
    HistoryKeepsInv(w, available, history);
  }

  /** Right after a write that reported success, a reader with a working store reads it. */
  lemma SuccessIsReadBack<V>(w: World<V>, available: bool, e: Write<V>, reader: Pid)
    requires var w' := Do(w, available, e); w'.reported == w'.writes && reader !in w'.pinned && w.reported <= w.writes
    ensures var w' := Do(w, available, e);
      ReadTier(w'.store.main, available, ReadIO(true, true)) == Value(Copy(e.value, w'.writes))
  {
  }

  // --- a map, when nothing fails -------------------------------------------

  predicate FaultFree(io: WriteIO) {
    && io.read == ReadIO(true, true) && io.prevSet.SetOk? && io.prevFile && io.put.SetOk?
    && io.remove && io.rewrite && io.file && io.drop
  }

  function ReadMain<V>(s: Store<V>, usable: bool): Read<V> {
    ReadTier(s.main, usable, ReadIO(true, true))
  }

  function ReadPrev<V>(s: Store<V>, usable: bool): Read<V> {
    ReadTier(s.prev, usable, ReadIO(true, true))
  }

  function Put<V>(s: Store<V>, v: V, available: bool, io: WriteIO): Store<V> {
    Store(WriteTier(s.main, v, available, false, io).main, Retain(s, available, io).prev)
  }

  /** A backup's slot and email; distinct ones have distinct files. */
  type Key = (int, string)

  datatype Op<V> = Set(key: Key, value: V, io: WriteIO) | Remove(key: Key)

  predicate AllFaultFree<V>(ops: seq<Op<V>>) {
    forall i :: 0 <= i < |ops| && ops[i].Set? ==> FaultFree(ops[i].io)
  }

  function At<V>(files: map<Key, Store<V>>, k: Key): Store<V> {
    if k in files then files[k] else Store(Tier(Missing, None), Tier(Missing, None))
  }

  /** The files after a history of writes and deletes, without a Keychain. */
  function Filed<V>(ops: seq<Op<V>>): map<Key, Store<V>>
    decreases |ops|
  {
    if ops == [] then map[]
    else
      var files := Filed(ops[..|ops| - 1]);
      match ops[|ops| - 1]
      case Set(k, v, io) => files[k := Put(At(files, k), v, false, io)]
      case Remove(k) => files[k := Delete(At(files, k), false, DeleteIO(true, true, true, true))]
  }

  /** What the last operation on a key left there. */
  function Latest<V>(ops: seq<Op<V>>, k: Key): Read<V>
    decreases |ops|
  {
    if ops == [] then Absent
    else
      var op := ops[|ops| - 1];
      if op.key != k then Latest(ops[..|ops| - 1], k)
      else if op.Set? then Value(op.value) else Absent
  }

  /** What the last operation on a key, if it was a write, displaced. */
  function Displaced<V>(ops: seq<Op<V>>, k: Key): Read<V>
    decreases |ops|
  {
    if ops == [] then Absent
    else
      var op := ops[|ops| - 1];
      if op.key != k then Displaced(ops[..|ops| - 1], k)
      else if op.Set? then Latest(ops[..|ops| - 1], k) else Absent
  }

  /**
   * On the file backend without faults the store is exactly a map: over every
   * history of writes and deletes, a read answers with the last operation on
   * its own key, and the previous generation is the value that one displaced.
   */
  lemma {:induction false} FileBackendIsMap<V>(ops: seq<Op<V>>, k: Key)
    requires AllFaultFree(ops)
    ensures ReadMain(At(Filed(ops), k), false) == Latest(ops, k)
    ensures ReadPrev(At(Filed(ops), k), false) == Displaced(ops, k)
    decreases |ops|
  {
    if ops != [] {
      var before := ops[..|ops| - 1];
      FileBackendIsMap(before, k);
      AbsentHasNoPrevious(before, k);
    }
  }

  lemma {:induction false} AbsentHasNoPrevious<V>(ops: seq<Op<V>>, k: Key)
    ensures Latest(ops, k).Absent? ==> Displaced(ops, k).Absent?
    decreases |ops|
  {
    if ops != [] {
      AbsentHasNoPrevious(ops[..|ops| - 1], k);
    }
  }

  /**
   * On the Keychain backend the current value is a cell as well, but the
   * previous generation is the one just displaced exactly when no .prev file
   * left from file mode shadows it with another value.
   */
  lemma PrevIsDisplacedIff<V>(s: Store<V>, v: V, io: WriteIO)
    requires FaultFree(io) && ReadMain(s, true).Value?
    ensures var s' := Put(s, v, true, io);
      && ReadMain(s', true) == Value(v)
      && (ReadPrev(s', true) == ReadMain(s, true) <==>
            !s.prev.file.Holds? || Value(s.prev.file.value) == ReadMain(s, true))
  {
  }

  // --- deleting -------------------------------------------------------------

  /**
   * A delete, unlike a write, can bring an older value back: exactly when the
   * file is not there to win any more and a Keychain item written before the
   * last reported success survives.
   */
  lemma DeleteExposesOlderIff<V>(w: World<V>, available: bool, io: DeleteIO, usable: bool)
    requires Inv(w) && (usable ==> available)
    ensures var s := Delete(w.store, available, io);
      var r := ReadTier(s.main, usable, ReadIO(true, true));
      (r.Value? && r.value.no < w.reported) <==>
        && usable && !io.item && (io.file || !w.store.main.file.Holds?)
        && w.store.main.item.Some? && w.store.main.item.value.no < w.reported
  {
  }

  const NOTHING: World<string> := World(Store(Tier(Missing, None), Tier(Missing, None)), {}, 0, 0)
  const GOOD := WriteIO(ReadIO(true, true), SetOk, true, SetOk, true, true, true, true)

  /** Such an item is reachable: the second write falls to the file and its Keychain delete fails. */
  lemma DeleteResurrects()
    ensures var history := [Write(1, "old", GOOD), Write(2, "new", GOOD.(put := SetFailed, drop := false))];
      var w := DoAll(NOTHING, true, history);
      && w.reported == 2
      && ReadMain(w.store, true) == Value(Copy("new", 2))
      && ReadMain(Delete(w.store, true, DeleteIO(true, true, false, true)), true) == Value(Copy("old", 1))
  {
    var history := [Write(1, "old", GOOD), Write(2, "new", GOOD.(put := SetFailed, drop := false))];
    assert history[..1] == [Write(1, "old", GOOD)];
    assert history[..1][..0] == [];
    assert DoAll(NOTHING, true, history[..1]) == Do(NOTHING, true, history[0]);
  }

  // --- reading and retaining, call by call ------------------------------------

  /** Absent is never said of a place that could not be read, unreadable only when what is missing may be there. */
  lemma ReadIff<V>(t: Tier<V>, usable: bool, io: ReadIO)
    ensures var r := ReadTier(t, usable, io);
      && (r.Unreadable? <==> !io.file || (!t.file.Holds? && usable && !io.item))
      && (r.Absent? <==> io.file && !t.file.Holds? && (!usable || (io.item && t.item.None?)))
      && (r.Value? && t.file.Holds? ==> r.value == t.file.value)
      && (r.Value? && !t.file.Holds? ==> usable && t.item == Some(r.value))
  {
  }

  /** A displaced value is kept somewhere whenever the file for it can be written, whatever the Keychain does. */
  lemma DisplacedIsKept<V>(s: Store<V>, usable: bool, io: WriteIO)
    requires ReadTier(s.main, usable, io.read).Value? && io.prevFile
    ensures var cur := ReadTier(s.main, usable, io.read).value;
      var prev := Retain(s, usable, io).prev;
      prev.item == Some(cur) || prev.file == Holds(cur)
    ensures usable && io.prevSet.SetOk? ==> Retain(s, usable, io).prev.file == s.prev.file
  {
  }

  /** A process whose set failed has given up on the Keychain: from then on what it stores is in the file. */
  lemma PinnedWritesFile<V>(w: World<V>, available: bool, e: Write<V>)
    ensures var w' := Do(w, available, e);
      && (e.pid in w'.pinned <==> e.pid in w.pinned || (available && !e.io.put.SetOk?))
      && (forall p :: p != e.pid ==> (p in w'.pinned <==> p in w.pinned))
      && (e.pid in w'.pinned && w'.reported == w'.writes && w.reported <= w.writes ==>
            w'.store.main.file == Holds(Copy(e.value, w'.writes)))
  {
  }

  /** A write to the file leaves an item behind it exactly when the delete fails and there was one, or one had landed. */
  lemma ItemLeftIff<V>(w: World<V>, available: bool, e: Write<V>)
    requires e.io.file && (e.pid in w.pinned || !available || !e.io.put.SetOk?)
    ensures Do(w, available, e).store.main.item.Some? <==>
      && !(available && e.io.drop)
      && (w.store.main.item.Some? || (available && e.pid !in w.pinned && e.io.put.SetFailedButLanded?))
  {
  }

  /** A value the Keychain took is reported stored exactly when no older file is left to win over it. */
  lemma KeychainWriteIff<V>(t: Tier<V>, v: V, io: WriteIO)
    requires io.put.SetOk?
    ensures var w := WriteTier(t, v, true, false, io);
      && !w.pinned && w.main.item == Some(v)
      && (w.ok ==> w.main.file.Missing? || w.main.file == Holds(v))
      && (w.ok <==> t.file.Missing? || io.remove || io.rewrite)
      && (w.main.file.Missing? <==> t.file.Missing? || io.remove)
  {
  }
}
