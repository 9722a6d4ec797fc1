// Any number of gates on any number of slots, interleaved with everything else
// that touches the stores. A gate's two locked sections are one step each; the
// POST lies between them and other processes move freely while it is in flight.

module GateProtocol {
  import opened Base
  import opened OAuth
  import opened GateSpec
  import opened GatePass

  type Pid = int

  /** Where a running gate stands; it holds its slot's consume lock throughout. */
  datatype Phase =
    | Holding(slot: Slot)
    | Posting(slot: Slot, input: Sendable)
    | Answered(slot: Slot, input: Sendable, successor: Sendable)

  /**
   * consume is the table of consume locks. The last three fields are history:
   * issued maps every generation whose refresh succeeded with a new refresh
   * token to the successor it was given; home is the slot each generation was
   * first seen in; tainted collects the generations whose record was lost or
   * blurred, or that came back into their slot from outside, each by one of the events below.
   */
  datatype World = World(
    disk: Disk,
    gates: map<Pid, Phase>,
    consume: map<Slot, Pid>,
    issued: map<Fp, Cred>,
    home: map<Fp, Slot>,
    tainted: set<Fp>)

  datatype Step =
    | Begin(pid: Pid, slot: Slot)
    | Enter(pid: Pid, snapshot: Cred, nowMs: int, input: InputIO)
    | Answer(pid: Pid, nowMs: int, reply: Reply)
    | Settle(pid: Pid, persist: PersistIO)
    | Crash(pid: Pid)
    | Outside(writer: Writer)
    | StashLogin(slot: Slot, cred: Cred, stash: StashFate)
    | LoseRow(id: RowId, whole: bool)

  /** No other slot ever held this generation: accounts do not share refresh tokens. */
  ghost predicate Belongs(w: World, slot: Slot, cred: Cred) {
    Fingerprint(cred) in w.home ==> w.home[Fingerprint(cred)] == slot
  }

  ghost function Known(w: World, slot: Slot): set<Fp> {
    set fp | fp in w.home && w.home[fp] == slot
  }

  /**
   * The taint of a spent generation that comes back into its slot from outside
   * the gate (an old session profile, an old export): with it every generation
   * the slot has known.
   */
  ghost function Revived(w: World, slot: Slot, cred: Cred): set<Fp> {
    if Fingerprint(cred) in w.issued then Known(w, slot) else {}
  }

  ghost predicate Enabled(w: World, step: Step) {
    match step
    case Begin(pid, slot) => pid !in w.gates && slot !in w.consume
    case Enter(pid, _, _, io) =>
      && pid in w.gates && w.gates[pid].Holding?
      && (io.profile.Some? ==> Belongs(w, w.gates[pid].slot, io.profile.value))
    case Answer(pid, nowMs, reply) =>
      && pid in w.gates && w.gates[pid].Posting?
      && var input := w.gates[pid].input;
      (Classify(reply) == NoError ==>
         var fp := Fingerprint(Successor(input, reply, nowMs));
         fp == Fingerprint(input) || fp !in w.home)
    case Settle(pid, io) =>
      pid in w.gates && w.gates[pid].Answered? && NewId(w.disk, io.stash)
    case Crash(pid) => pid in w.gates
    case Outside(Install(slot, cred)) => Belongs(w, slot, cred)
    case Outside(Remove(_)) => true
    case StashLogin(_, _, stash) => NewId(w.disk, stash)
    case LoseRow(id, _) => true
  }

  ghost function Keys(d: Disk): set<Fp> {
    set id | id in d.rows && d.rows[id].consumedFp.Some? :: d.rows[id].consumedFp.value
  }

  function Leave(w: World, pid: Pid): World
    requires pid in w.gates
  {
    w.(gates := w.gates - {pid}, consume := w.consume - {w.gates[pid].slot})
  }

  /** Notes where the slot's generation was first seen. */
  function Note(home: map<Fp, Slot>, d: Disk, slot: Slot): map<Fp, Slot> {
    if slot in d.backups then home[Fingerprint(d.backups[slot]) := slot] else home
  }

  /** A stash that cannot read the manifest drops every other row. */
  ghost function Dropped(d: Disk, fate: StashFate): set<Fp> {
    if fate.ManifestReplaced? then Keys(d) else {}
  }

  /** A spent profile was taken; or a row of a tainted generation brought back one already tainted. */
  ghost function RereadTaint(w: World, slot: Slot, io: InputIO): set<Fp> {
    var d := GateInput(w.disk, slot, io).disk;
    if TookProfile(w.disk, slot, io) then Revived(w, slot, io.profile.value)
    else if slot in w.disk.backups && slot in d.backups
            && Fingerprint(d.backups[slot]) != Fingerprint(w.disk.backups[slot])
            && Fingerprint(d.backups[slot]) in w.tainted then Revived(w, slot, d.backups[slot])
    else {}
  }

  /** A live row of generation fp parks fp itself: an endpoint that kept the refresh token answered. */
  ghost predicate ParksItself(d: Disk, slot: Slot, fp: Fp) {
    exists id :: d.Live(id, slot, fp) && Fingerprint(d.entries[id]) == fp
  }

  /** A live row of generation fp parks another one. */
  ghost predicate Parks(d: Disk, id: RowId, slot: Slot, fp: Fp) {
    d.Live(id, slot, fp) && Fingerprint(d.entries[id]) != fp
  }

  /** A spent generation is POSTed again by way of such a row. */
  ghost function Respent(w: World, slot: Slot, input: Cred): set<Fp> {
    var fp := Fingerprint(input);
    if fp in w.issued && ParksItself(w.disk, slot, fp) then {fp} else {}
  }

  ghost function EnterNext(w: World, pid: Pid, snapshot: Cred, nowMs: int, io: InputIO): World
    requires Enabled(w, Enter(pid, snapshot, nowMs, io))
  {
    var slot := w.gates[pid].slot;
    var i := GateInput(w.disk, slot, io);
    var w' := w.(disk := i.disk, home := Note(w.home, i.disk, slot),
                 tainted := w.tainted + RereadTaint(w, slot, io));
    if i.kind == NoError && i.current.Some? && Decide(i.current.value, snapshot, nowMs).Post?
    then w'.(gates := w.gates[pid := Posting(slot, i.current.value)],
             tainted := w'.tainted + Respent(w, slot, i.current.value))
    else Leave(w', pid)
  }

  ghost function AnswerNext(w: World, pid: Pid, nowMs: int, reply: Reply): World
    requires Enabled(w, Answer(pid, nowMs, reply))
  {
    var Posting(slot, input) := w.gates[pid];
    if Classify(reply) != NoError then Leave(w, pid)
    else
      var successor := Successor(input, reply, nowMs);
      var w' := w.(gates := w.gates[pid := Answered(slot, input, successor)]);
      if Fingerprint(successor) == Fingerprint(input) then w'
      else w'.(issued := w.issued[Fingerprint(input) := successor],
               home := w.home[Fingerprint(successor) := slot])
  }

  /** Taints: unpersisted; rows dropped by the stash. */
  ghost function SettleNext(w: World, pid: Pid, io: PersistIO): World
    requires Enabled(w, Settle(pid, io))
  {
    var Answered(slot, input, successor) := w.gates[pid];
    var fp := Fingerprint(input);
    var p := Persist(w.disk, slot, successor, fp, io);
    var taint :=
      if p.reason.None? then {}
      else (if p.reason == Some(Unpersisted) then {fp} else {}) + Dropped(w.disk, io.stash);
    Leave(w.(disk := p.disk, tainted := w.tainted + taint), pid)
  }

  ghost function Next(w: World, step: Step): World
    requires Enabled(w, step)
  {
    match step
    case Begin(pid, slot) => w.(gates := w.gates[pid := Holding(slot)], consume := w.consume[slot := pid])
    case Enter(pid, snapshot, nowMs, io) => EnterNext(w, pid, snapshot, nowMs, io)
    case Answer(pid, nowMs, reply) => AnswerNext(w, pid, nowMs, reply)
    case Settle(pid, io) => SettleNext(w, pid, io)
    case Crash(pid) =>
      // A crash between the reply and the persist loses the successor.
      var w' := Leave(w, pid);
      if w.gates[pid].Answered? then w'.(tainted := w.tainted + {Fingerprint(w.gates[pid].input)}) else w'
    case Outside(writer) =>
      var d := Interfere(w.disk, [writer]);
      var again := writer.Install? && writer.slot in w.disk.backups
        && Fingerprint(w.disk.backups[writer.slot]) == Fingerprint(writer.cred);
      w.(disk := d, home := Note(w.home, d, writer.slot),
         tainted := w.tainted + if writer.Install? && !again then Revived(w, writer.slot, writer.cred) else {})
    case StashLogin(slot, cred, fate) =>
      w.(disk := Stash(w.disk, cred, Row(slot, Displaced, None), fate).disk,
         tainted := w.tainted + Dropped(w.disk, fate))
    case LoseRow(id, whole) =>
      // A row, or its bytes alone, removed by anything but a gate.
      var d := w.disk.(entries := w.disk.entries - {id}, rows := if whole then w.disk.rows - {id} else w.disk.rows);
      w.(disk := d,
         tainted := w.tainted + (if id in w.disk.rows && w.disk.rows[id].consumedFp.Some?
                                 then {w.disk.rows[id].consumedFp.value} else {}))
  }

  // --- the invariant --------------------------------------------------------

  ghost predicate HomeIs(w: World, fp: Fp, slot: Slot) {
    fp in w.home && w.home[fp] == slot
  }

  /** The slot holds generation fp, one that was not spent, or nothing; or a spent one came back. */
  ghost predicate SlotNear(w: World, slot: Slot, fp: Fp) {
    slot in w.disk.backups ==>
      var held := Fingerprint(w.disk.backups[slot]);
      held == fp || held !in w.issued || (held in w.tainted && fp in w.tainted)
  }

  ghost predicate GateOk(w: World, pid: Pid)
    requires pid in w.gates
  {
    var g := w.gates[pid];
    && g.slot in w.consume && w.consume[g.slot] == pid
    && match g
       case Holding(_) => true
       case Posting(slot, input) =>
         && HomeIs(w, Fingerprint(input), slot)
         && (Fingerprint(input) !in w.issued || Fingerprint(input) in w.tainted)
         && SlotNear(w, slot, Fingerprint(input))
       case Answered(slot, input, successor) =>
         && HomeIs(w, Fingerprint(input), slot)
         && HomeIs(w, Fingerprint(successor), slot)
         && (Fingerprint(successor) != Fingerprint(input) ==>
               && Fingerprint(input) in w.issued && w.issued[Fingerprint(input)] == successor
               && Fingerprint(successor) !in w.issued)
         && (Fingerprint(successor) == Fingerprint(input) ==>
               Fingerprint(input) !in w.issued || Fingerprint(input) in w.tainted)
         && SlotNear(w, slot, Fingerprint(input))
  }

  /** A gate's row of generation k: what its bytes may be. */
  ghost predicate RowOk(w: World, id: RowId)
    requires id in w.disk.rows
  {
    var row := w.disk.rows[id];
    row.consumedFp.Some? ==>
      var k := row.consumedFp.value;
      && HomeIs(w, k, row.slot)
      && (id in w.disk.entries ==>
            var fp := Fingerprint(w.disk.entries[id]);
            && HomeIs(w, fp, row.slot)
            && (k in w.issued || fp == k)
            && (k !in w.tainted && fp != k ==> w.disk.entries[id] == w.issued[k])
            && (row.slot in w.disk.backups && Fingerprint(w.disk.backups[row.slot]) == k ==>
                  fp !in w.issued || fp == k || (fp in w.tainted && k in w.tainted)))
  }

  /** The holder of the slot's consume lock has the reply for fp in hand. */
  ghost predicate InHand(w: World, slot: Slot, fp: Fp) {
    && slot in w.consume && w.consume[slot] in w.gates
    && w.gates[w.consume[slot]].Answered?
    && w.gates[w.consume[slot]].slot == slot
    && Fingerprint(w.gates[w.consume[slot]].input) == fp
  }

  /** A spent generation in a slot has a live row of its successor, or that is in hand. */
  ghost predicate SlotOk(w: World, slot: Slot)
    requires slot in w.disk.backups
  {
    var fp := Fingerprint(w.disk.backups[slot]);
    && HomeIs(w, fp, slot)
    && (fp in w.issued && fp !in w.tainted ==>
          InHand(w, slot, fp) || exists id :: Parks(w.disk, id, slot, fp))
  }

  ghost predicate Inv(w: World) {
    && (forall pid :: pid in w.gates ==> GateOk(w, pid))
    && (forall id :: id in w.disk.rows ==> RowOk(w, id))
    && (forall slot :: slot in w.disk.backups ==> SlotOk(w, slot))
    && (forall fp :: fp in w.issued ==> fp in w.home)
  }

  /** No gate running, nothing spent yet, one home per stored generation, no gate rows. */
  ghost predicate Init(w: World) {
    && w.gates == map[] && w.consume == map[] && w.issued == map[] && w.tainted == {}
    && (forall slot :: slot in w.disk.backups ==> HomeIs(w, Fingerprint(w.disk.backups[slot]), slot))
    && (forall id :: id in w.disk.rows ==> w.disk.rows[id].consumedFp.None?)
  }

  lemma InvBegin(w: World, step: Step)
    requires Inv(w) && step.Begin? && Enabled(w, step)
    ensures Inv(Next(w, step))
  {
    var w' := Next(w, step);
    forall pid | pid in w'.gates ensures GateOk(w', pid) {
      if pid != step.pid { assert GateOk(w, pid); }
    }
    forall id | id in w'.disk.rows ensures RowOk(w', id) { assert RowOk(w, id); }
    forall slot | slot in w'.disk.backups ensures SlotOk(w', slot) { assert SlotOk(w, slot); }
  }

  lemma InvAnswer(w: World, step: Step)
    requires Inv(w) && step.Answer? && Enabled(w, step)
    ensures Inv(Next(w, step))
  {
    var w' := Next(w, step);
    assert GateOk(w, step.pid);
    forall pid | pid in w'.gates ensures GateOk(w', pid) {
      assert GateOk(w, pid);
    }
    forall id | id in w'.disk.rows ensures RowOk(w', id) { assert RowOk(w, id); }
    forall slot | slot in w'.disk.backups ensures SlotOk(w', slot) { assert SlotOk(w, slot); }
  }

  /** An untouched slot stays sound when its live row survives or its generation is tainted. */
  lemma SlotStays(w: World, w': World, slot: Slot)
    requires slot in w.disk.backups && SlotOk(w, slot)
    requires slot in w'.disk.backups && Fingerprint(w'.disk.backups[slot]) == Fingerprint(w.disk.backups[slot])
    requires HomeIs(w', Fingerprint(w.disk.backups[slot]), slot)
    requires w'.issued == w.issued && w.tainted <= w'.tainted
    requires var fp := Fingerprint(w.disk.backups[slot]);
      fp in w.issued && fp !in w'.tainted ==>
        && (InHand(w, slot, fp) ==> InHand(w', slot, fp) || exists id :: Parks(w'.disk, id, slot, fp))
        && (forall id :: Parks(w.disk, id, slot, fp) ==> Parks(w'.disk, id, slot, fp))
    ensures SlotOk(w', slot)
  {
    var fp := Fingerprint(w.disk.backups[slot]);
    if fp in w.issued && fp !in w'.tainted && !InHand(w, slot, fp) {
      var id :| Parks(w.disk, id, slot, fp);
      assert Parks(w'.disk, id, slot, fp);
    }
  }

  lemma InvCrash(w: World, step: Step)
    requires Inv(w) && step.Crash? && Enabled(w, step)
    ensures Inv(Next(w, step))
  {
    var w' := Next(w, step);
    assert w'.disk == w.disk && w'.home == w.home && w'.issued == w.issued;
    assert GateOk(w, step.pid);
    forall pid | pid in w'.gates ensures GateOk(w', pid) { assert GateOk(w, pid); }
    forall id | id in w'.disk.rows ensures RowOk(w', id) { assert RowOk(w, id); }
    forall slot | slot in w'.disk.backups ensures SlotOk(w', slot) { SlotStays(w, w', slot); }
  }

  lemma InvOutside(w: World, step: Step)
    requires Inv(w) && step.Outside? && Enabled(w, step)
    ensures Inv(Next(w, step))
  {
    var w' := Next(w, step);
    var at := step.writer.slot;
    assert Interfere(w.disk, []) == w.disk && [step.writer][..0] == [];
    assert w'.disk.rows == w.disk.rows && w'.disk.entries == w.disk.entries;
    if step.writer.Install? && at in w.disk.backups { assert SlotOk(w, at); }
    assert forall fp, slot :: HomeIs(w, fp, slot) ==> HomeIs(w', fp, slot);
    forall pid | pid in w'.gates ensures GateOk(w', pid) { assert GateOk(w, pid); }
    forall id | id in w'.disk.rows ensures RowOk(w', id) { assert RowOk(w, id); }
    forall slot | slot in w'.disk.backups ensures SlotOk(w', slot) {
      if slot != at || (slot in w.disk.backups && Fingerprint(w.disk.backups[slot]) == Fingerprint(w'.disk.backups[slot])) {
        SlotStays(w, w', slot);
      }
    }
  }

  lemma InvStashLogin(w: World, step: Step)
    requires Inv(w) && step.StashLogin? && Enabled(w, step)
    ensures Inv(Next(w, step))
  {
    var w' := Next(w, step);
    forall pid | pid in w'.gates ensures GateOk(w', pid) { assert GateOk(w, pid); }
    forall id | id in w'.disk.rows ensures RowOk(w', id) {
      if id in w.disk.rows { assert RowOk(w, id); }
    }
    forall slot | slot in w'.disk.backups ensures SlotOk(w', slot) { SlotStays(w, w', slot); }
  }

  lemma InvLoseRow(w: World, step: Step)
    requires Inv(w) && step.LoseRow? && Enabled(w, step)
    ensures Inv(Next(w, step))
  {
    var w' := Next(w, step);
    forall pid | pid in w'.gates ensures GateOk(w', pid) { assert GateOk(w, pid); }
    forall id | id in w'.disk.rows ensures RowOk(w', id) { assert RowOk(w, id); }
    forall slot | slot in w'.disk.backups ensures SlotOk(w', slot) { SlotStays(w, w', slot); }
  }

  /** Beside the backups, d became r by at most one new row of slot and generation fp holding cred. */
  ghost predicate AddsRow(d: Disk, r: Disk, slot: Slot, cred: Cred, fp: Fp, replaced: bool) {
    && (!replaced ==> forall id :: id in d.rows ==> id in r.rows)
    && (forall id :: id in d.entries ==> id in r.entries && r.entries[id] == d.entries[id])
    && (forall id :: id in r.rows && id in d.rows ==>
          r.rows[id] == d.rows[id] && (id in r.entries <==> id in d.entries))
    && (forall id :: id in r.rows && id !in d.rows ==>
          && id in r.entries && r.entries[id] == cred
          && r.rows[id].slot == slot && r.rows[id].consumedFp == Some(fp))
  }

  lemma ParkAddsRow(d: Disk, slot: Slot, successor: Cred, fp: Fp, reason: Reason, fate: StashFate, now: Cred)
    requires NewId(d, fate)
    ensures var p := Park(d, slot, successor, fp, reason, fate, now);
      && AddsRow(d, p.disk, slot, successor, fp, fate.ManifestReplaced?)
      && p.disk.backups == d.backups && p.reason.Some?
      && (p.reason == Some(Unpersisted) || exists id :: p.disk.Live(id, slot, fp) && p.disk.entries[id] == successor)
      && (p.reason == Some(Unpersisted) || p.reason == Some(reason))
      && (p.reason == Some(Unpersisted) && !reason.Unpersisted? ==> p.disk.rows == d.rows)
  {
    var p := Park(d, slot, successor, fp, reason, fate, now);
    if fate.RowWritten? || fate.ManifestReplaced? {
      assert p.disk.Live(fate.id, slot, fp);
    }
  }

  /** The successor reaches the slot, a new row, or neither. */
  lemma PersistShape(d: Disk, slot: Slot, successor: Cred, fp: Fp, io: PersistIO)
    requires NewId(d, io.stash)
    ensures var p := Persist(d, slot, successor, fp, io);
      && (p.disk.backups == d.backups
          || (slot in d.backups && Fingerprint(d.backups[slot]) == fp && p.disk.backups == d.backups[slot := successor]))
      && AddsRow(d, p.disk, slot, successor, fp, p.reason.Some? && io.stash.ManifestReplaced?)
      && (p.reason.None? ==> p.disk.backups == d.backups[slot := successor] && p.disk.rows == d.rows)
      && (p.reason.Some? && p.reason != Some(Unpersisted) ==>
            exists id :: p.disk.Live(id, slot, fp) && p.disk.entries[id] == successor)
  {
    if !io.lock {
      ParkAddsRow(d, slot, successor, fp, PersistLockFailed, io.stash, successor);
    } else if !io.readable {
      ParkAddsRow(d, slot, successor, fp, StoreUnreadable, io.stash, successor);
    } else if io.absent || slot !in d.backups {
      ParkAddsRow(d, slot, successor, fp, SlotRemoved, io.stash, successor);
    } else if Fingerprint(d.backups[slot]) != fp {
      ParkAddsRow(d, slot, successor, fp, CasConflict, io.stash, d.backups[slot]);
    } else if !io.write.Stored? {
      var w := Write(d, slot, successor, io.write);
      ParkAddsRow(w, slot, successor, fp, PersistFailed, io.stash, successor);
    }
  }

  lemma InvSettle(w: World, step: Step)
    requires Inv(w) && step.Settle? && Enabled(w, step)
    ensures Inv(Next(w, step))
  {
    var w' := Next(w, step);
    var Answered(slot, input, successor) := w.gates[step.pid];
    var fp := Fingerprint(input);
    assert GateOk(w, step.pid);
    PersistShape(w.disk, slot, successor, fp, step.persist);
    forall pid | pid in w'.gates ensures GateOk(w', pid) { assert GateOk(w, pid); }
    forall id | id in w'.disk.rows ensures RowOk(w', id) {
      if id in w.disk.rows { assert RowOk(w, id); }
    }
    forall s | s in w'.disk.backups ensures SlotOk(w', s) {
      if s != slot || w'.disk.backups == w.disk.backups {
        SettleKeepsSlot(w, step, s);
      } else {
        assert SlotOk(w, slot);
      }
    }
  }

  lemma SettleKeepsSlot(w: World, step: Step, s: Slot)
    requires Inv(w) && step.Settle? && Enabled(w, step)
    requires s in w.disk.backups && s in Next(w, step).disk.backups
    requires Next(w, step).disk.backups[s] == w.disk.backups[s]
    ensures SlotOk(Next(w, step), s)
  {
    var w' := Next(w, step);
    var g := w.gates[step.pid];
    var fp := Fingerprint(w.disk.backups[s]);
    PersistShape(w.disk, g.slot, g.successor, Fingerprint(g.input), step.persist);
    assert GateOk(w, step.pid) && SlotOk(w, s);
    if fp !in w'.tainted {
      forall id | Parks(w.disk, id, s, fp) ensures Parks(w'.disk, id, s, fp) {
        assert fp in Keys(w.disk);
      }
    }
    if s == g.slot && InHand(w, s, fp) && fp in w.issued && fp !in w'.tainted {
      assert Fingerprint(g.successor) != fp;
      assert Persist(w.disk, g.slot, g.successor, Fingerprint(g.input), step.persist).reason.Some?;
      var id :| w'.disk.Live(id, s, fp) && w'.disk.entries[id] == g.successor;
      assert Parks(w'.disk, id, s, fp);
    }
    SlotStays(w, w', s);
  }

  /** Which of the slot's generations a re-read can leave behind, in terms of the invariant. */
  lemma AdvancedIsUnspent(w: World, slot: Slot, io: InputIO, cred: Cred)
    requires Inv(w) && AdvancedTo(w.disk, slot, io, cred)
    ensures HomeIs(w, Fingerprint(cred), slot)
    ensures var (fp, held) := (Fingerprint(cred), Fingerprint(w.disk.backups[slot]));
      fp == held || fp !in w.issued || (fp in w.tainted && held in w.tainted)
  {
    assert SlotOk(w, slot);
    if cred != w.disk.backups[slot] {
      var id :| Adoptable(w.disk, slot, Fingerprint(w.disk.backups[slot]), io.unreadable, id) && cred == w.disk.entries[id];
      assert RowOk(w, id);
    }
  }

  /**
   * A spent, untainted generation is handed on only by way of a row that parks
   * it itself: otherwise its live row is adopted or the pass defers.
   */
  lemma InputIsUnspent(w: World, step: Step)
    requires Inv(w) && step.Enter? && Enabled(w, step)
    requires GateInput(w.disk, w.gates[step.pid].slot, step.input).kind == NoError
    ensures var i := GateInput(w.disk, w.gates[step.pid].slot, step.input);
      && i.current.Some?
      && (|| Unspent(w, Fingerprint(i.current.value))
          || Fingerprint(i.current.value) in RereadTaint(w, w.gates[step.pid].slot, step.input)
          || ParksItself(w.disk, w.gates[step.pid].slot, Fingerprint(i.current.value)))
  {
    var pid, io := step.pid, step.input;
    var slot := w.gates[pid].slot;
    var i := GateInput(w.disk, slot, io);
    InputCurrent(w.disk, slot, io);
    var fp := Fingerprint(w.disk.backups[slot]);
    assert SlotOk(w, slot) && GateOk(w, pid);
    if !Unspent(w, fp) {
      var id :| Parks(w.disk, id, slot, fp);
      LiveRowIsAdopted(w.disk, slot, io, id);
      var j :| AdoptedRow(w.disk, slot, io, j)
        && (i.current == Some(w.disk.entries[j]) || (TookProfile(w.disk, slot, io) && i.current == io.profile));
      assert RowOk(w, j);
      assert w.disk.Live(j, slot, fp);
    } else if AdvancedTo(w.disk, slot, io, i.current.value) {
      AdvancedIsUnspent(w, slot, io, i.current.value);
    }
  }

  predicate Unspent(w: World, fp: Fp) {
    fp !in w.issued || fp in w.tainted
  }

  /** What a re-read does to the world, whoever called it and however it ends. */
  ghost predicate Reread(w: World, w': World, slot: Slot, io: InputIO) {
    && OnlyDeadGone(w.disk, w'.disk, slot, io)
    && w'.issued == w.issued
    && w.tainted <= w'.tainted
    && (forall fp :: fp in w.home ==> fp in w'.home && w'.home[fp] == w.home[fp])
    && (slot in w'.disk.backups ==>
          var (fp, held) := (Fingerprint(w'.disk.backups[slot]), Fingerprint(w.disk.backups[slot]));
          && HomeIs(w', fp, slot)
          && (fp !in w.issued || Known(w, slot) <= w'.tainted || fp == held))
  }

  lemma EnterRereads(w: World, step: Step)
    requires Inv(w) && step.Enter? && Enabled(w, step)
    ensures Reread(w, Next(w, step), w.gates[step.pid].slot, step.input)
  {
    var w' := Next(w, step);
    var slot := w.gates[step.pid].slot;
    RetiresOnlyDead(w.disk, slot, step.input);
    InputCurrent(w.disk, slot, step.input);
    if slot in w.disk.backups {
      assert SlotOk(w, slot);
      if AdvancedTo(w.disk, slot, step.input, w'.disk.backups[slot]) {
        AdvancedIsUnspent(w, slot, step.input, w'.disk.backups[slot]);
      }
    }
  }

  lemma RereadKeepsRow(w: World, w': World, slot: Slot, io: InputIO, id: RowId)
    requires Inv(w) && Reread(w, w', slot, io) && id in w'.disk.rows
    ensures RowOk(w', id)
  {
    assert RowOk(w, id);
  }

  lemma RereadKeepsOtherSlot(w: World, w': World, slot: Slot, io: InputIO, s: Slot)
    requires Inv(w) && Reread(w, w', slot, io)
    requires s in w.disk.backups && s in w'.disk.backups && s != slot
    ensures HomeIs(w', Fingerprint(w'.disk.backups[s]), s)
    ensures forall id, fp :: w.disk.Live(id, s, fp) ==> w'.disk.Live(id, s, fp)
  {
    assert SlotOk(w, s);
  }

  lemma RereadKeepsGate(w: World, w': World, slot: Slot, io: InputIO, pid: Pid)
    requires Inv(w) && Reread(w, w', slot, io)
    requires pid in w.gates && pid in w'.gates && w'.gates[pid] == w.gates[pid]
    requires w.gates[pid].slot != slot
    requires w.gates[pid].slot in w'.consume && w'.consume[w.gates[pid].slot] == pid
    ensures GateOk(w', pid)
  {
    assert GateOk(w, pid);
  }

  lemma EnterKeepsOtherSlot(w: World, step: Step, s: Slot)
    requires Inv(w) && step.Enter? && Enabled(w, step)
    requires s in Next(w, step).disk.backups && s != w.gates[step.pid].slot
    ensures SlotOk(Next(w, step), s)
  {
    var w' := Next(w, step);
    EnterRereads(w, step);
    assert GateOk(w, step.pid);
    RereadKeepsOtherSlot(w, w', w.gates[step.pid].slot, step.input, s);
    SlotStays(w, w', s);
  }

  lemma EnterKeepsOwnSlot(w: World, step: Step)
    requires Inv(w) && step.Enter? && Enabled(w, step)
    requires w.gates[step.pid].slot in Next(w, step).disk.backups
    ensures SlotOk(Next(w, step), w.gates[step.pid].slot)
  {
    var w' := Next(w, step);
    var slot := w.gates[step.pid].slot;
    RetiresOnlyDead(w.disk, slot, step.input);
    InputCurrent(w.disk, slot, step.input);
    assert SlotOk(w, slot) && GateOk(w, step.pid);
    var fp := Fingerprint(w.disk.backups[slot]);
    if !TookProfile(w.disk, slot, step.input) {
      AdvancedIsUnspent(w, slot, step.input, w'.disk.backups[slot]);
      if Fingerprint(w'.disk.backups[slot]) == fp && fp in w.issued && fp !in w.tainted {
        forall id | Parks(w.disk, id, slot, fp) ensures Parks(w'.disk, id, slot, fp) {
          assert RowOk(w, id);
          if AdoptedRow(w.disk, slot, step.input, id) {
            AdoptedMovesSlot(w.disk, slot, step.input, id);
          }
        }
        SlotStays(w, w', slot);
      }
    }
  }

  lemma EnterKeepsGate(w: World, step: Step, pid: Pid)
    requires Inv(w) && step.Enter? && Enabled(w, step)
    requires pid in Next(w, step).gates
    ensures GateOk(Next(w, step), pid)
  {
    var w' := Next(w, step);
    var slot := w.gates[step.pid].slot;
    EnterRereads(w, step);
    assert GateOk(w, step.pid) && GateOk(w, pid);
    if pid != step.pid {
      RereadKeepsGate(w, w', slot, step.input, pid);
    } else {
      var i := GateInput(w.disk, slot, step.input);
      InputIsUnspent(w, step);
      InputCurrent(w.disk, slot, step.input);
      assert SlotOk(w, slot);
      if AdvancedTo(w.disk, slot, step.input, i.current.value) {
        AdvancedIsUnspent(w, slot, step.input, i.current.value);
      }
    }
  }

  lemma InvEnter(w: World, step: Step)
    requires Inv(w) && step.Enter? && Enabled(w, step)
    ensures Inv(Next(w, step))
  {
    var w' := Next(w, step);
    var slot := w.gates[step.pid].slot;
    EnterRereads(w, step);
    forall pid | pid in w'.gates ensures GateOk(w', pid) { EnterKeepsGate(w, step, pid); }
    forall id | id in w'.disk.rows ensures RowOk(w', id) { RereadKeepsRow(w, w', slot, step.input, id); }
    forall s | s in w'.disk.backups ensures SlotOk(w', s) {
      if s == slot { EnterKeepsOwnSlot(w, step); } else { EnterKeepsOtherSlot(w, step, s); }
    }
  }

  // --- runs -----------------------------------------------------------------

  lemma StepKeepsInv(w: World, step: Step)
    requires Inv(w) && Enabled(w, step)
    ensures Inv(Next(w, step))
  {
    match step
    case Begin(_, _) => InvBegin(w, step);
    case Enter(_, _, _, _) => InvEnter(w, step);
    case Answer(_, _, _) => InvAnswer(w, step);
    case Settle(_, _) => InvSettle(w, step);
    case Crash(_) => InvCrash(w, step);
    case Outside(_) => InvOutside(w, step);
    case StashLogin(_, _, _) => InvStashLogin(w, step);
    case LoseRow(_, _) => InvLoseRow(w, step);
  }

  ghost predicate Legal(w: World, steps: seq<Step>)
    decreases |steps|
  {
    steps == [] || (Enabled(w, steps[0]) && Legal(Next(w, steps[0]), steps[1..]))
  }

  ghost function After(w: World, steps: seq<Step>): World
    requires Legal(w, steps)
    decreases |steps|
  {
    if steps == [] then w else After(Next(w, steps[0]), steps[1..])
  }

  lemma {:induction false} RunKeepsInv(w: World, steps: seq<Step>)
    requires Inv(w) && Legal(w, steps)
    ensures Inv(After(w, steps))
    decreases |steps|
  {
    if steps != [] {
      StepKeepsInv(w, steps[0]);
      RunKeepsInv(Next(w, steps[0]), steps[1..]);
    }
  }

  lemma InitInv(w: World)
    requires Init(w)
    ensures Inv(w)
  {
  }

  /** The credential a gate POSTs in this step, if it does. */
  ghost function Posted(w: World, step: Step): Option<Cred>
    requires Enabled(w, step)
  {
    if step.Enter? && step.pid in Next(w, step).gates && Next(w, step).gates[step.pid].Posting?
    then Some(Next(w, step).gates[step.pid].input) else None
  }

  /**
   * One-time use. After any run, whatever gates and writers did and whatever
   * failed, a gate never POSTs a generation whose refresh already succeeded,
   * unless that generation is tainted, a session profile brings a spent one back
   * in this very pass, or a row on disk parks the generation itself.
   */
  lemma OneTimeUse(w: World, steps: seq<Step>, step: Step)
    requires Init(w) && Legal(w, steps) && Enabled(After(w, steps), step)
    ensures var now := After(w, steps);
      Posted(now, step).Some? ==>
        var (fp, slot) := (Fingerprint(Posted(now, step).value), now.gates[step.pid].slot);
        || fp !in now.issued || fp in now.tainted
        || (TookProfile(now.disk, slot, step.input) && Fingerprint(step.input.profile.value) in now.issued)
        || ParksItself(now.disk, slot, fp)
  {
    InitInv(w);
    RunKeepsInv(w, steps);
    var now := After(w, steps);
    if Posted(now, step).Some? {
      InputIsUnspent(now, step);
      InputCurrent(now.disk, now.gates[step.pid].slot, step.input);
    }
  }

  /** The steps that lose a record, park a generation under itself, or bring a spent one back from outside the gate. */
  ghost predicate Loses(w: World, step: Step)
    requires Enabled(w, step)
  {
    match step
    case Enter(pid, _, _, io) =>
      TookProfile(w.disk, w.gates[pid].slot, io) && Fingerprint(io.profile.value) in w.issued
    case Settle(pid, io) =>
      var Answered(slot, input, successor) := w.gates[pid];
      var p := Persist(w.disk, slot, successor, Fingerprint(input), io);
      && p.reason.Some?
      && (|| p.reason.value.Unpersisted?
          || Fingerprint(successor) == Fingerprint(input)
          || (io.stash.ManifestReplaced? && Keys(w.disk) != {}))
    case Crash(pid) => w.gates[pid].Answered?
    case Outside(Install(slot, cred)) =>
      && Fingerprint(cred) in w.issued
      && (slot in w.disk.backups ==> Fingerprint(w.disk.backups[slot]) != Fingerprint(cred))
    case StashLogin(_, _, fate) => fate.ManifestReplaced? && Keys(w.disk) != {}
    case LoseRow(id, _) => id in w.disk.rows && w.disk.rows[id].consumedFp.Some?
    case _ => false
  }

  ghost predicate Lossless(w: World, steps: seq<Step>)
    requires Legal(w, steps)
    decreases |steps|
  {
    steps == [] || (!Loses(w, steps[0]) && Lossless(Next(w, steps[0]), steps[1..]))
  }

  /** Nothing is tainted, and no row parks its own generation. */
  ghost predicate Clean(w: World) {
    w.tainted == {} && forall slot, fp :: !ParksItself(w.disk, slot, fp)
  }

  lemma EnterStaysClean(w: World, step: Step)
    requires Clean(w) && step.Enter? && Enabled(w, step) && !Loses(w, step)
    ensures Clean(Next(w, step))
  {
    RetiresOnlyDead(w.disk, w.gates[step.pid].slot, step.input);
    var w' := Next(w, step);
    forall slot, fp ensures !ParksItself(w'.disk, slot, fp) {
      assert !ParksItself(w.disk, slot, fp);
    }
  }

  lemma SettleStaysClean(w: World, step: Step)
    requires Clean(w) && step.Settle? && Enabled(w, step) && !Loses(w, step)
    ensures Clean(Next(w, step))
  {
    var Answered(slot, input, successor) := w.gates[step.pid];
    PersistShape(w.disk, slot, successor, Fingerprint(input), step.persist);
    var w' := Next(w, step);
    forall s, fp ensures !ParksItself(w'.disk, s, fp) {
      assert !ParksItself(w.disk, s, fp);
      if ParksItself(w'.disk, s, fp) {
        var id :| w'.disk.Live(id, s, fp) && Fingerprint(w'.disk.entries[id]) == fp;
        assert id in w.disk.rows ==> w.disk.Live(id, s, fp);
      }
    }
  }

  lemma OthersStayClean(w: World, step: Step)
    requires Clean(w) && !step.Enter? && !step.Settle? && Enabled(w, step) && !Loses(w, step)
    ensures Clean(Next(w, step))
  {
    var w' := Next(w, step);
    if step.Outside? {
      assert Interfere(w.disk, []) == w.disk && [step.writer][..0] == [];
    }
    forall s, fp ensures !ParksItself(w'.disk, s, fp) {
      assert !ParksItself(w.disk, s, fp);
      if ParksItself(w'.disk, s, fp) {
        var id :| w'.disk.Live(id, s, fp) && Fingerprint(w'.disk.entries[id]) == fp;
        assert w.disk.Live(id, s, fp);
      }
    }
  }

  lemma {:induction false} LosslessIsClean(w: World, steps: seq<Step>)
    requires Legal(w, steps) && Lossless(w, steps) && Clean(w)
    ensures Clean(After(w, steps))
    decreases |steps|
  {
    if steps != [] {
      if steps[0].Enter? {
        EnterStaysClean(w, steps[0]);
      } else if steps[0].Settle? {
        SettleStaysClean(w, steps[0]);
      } else {
        OthersStayClean(w, steps[0]);
      }
      LosslessIsClean(Next(w, steps[0]), steps[1..]);
    }
  }

  /** With no such step, whatever else fails or interferes, never at all. */
  lemma NeverRespends(w: World, steps: seq<Step>, step: Step)
    requires Init(w) && Legal(w, steps) && Lossless(w, steps)
    requires Enabled(After(w, steps), step) && !Loses(After(w, steps), step)
    ensures Posted(After(w, steps), step).Some? ==>
      Fingerprint(Posted(After(w, steps), step).value) !in After(w, steps).issued
  {
    LosslessIsClean(w, steps);
    OneTimeUse(w, steps, step);
  }

  /** A spent profile is stored, and read back as the slot's value. */
  ghost predicate RevivesProfile(w: World, slot: Slot, io: InputIO) {
    TookProfile(w.disk, slot, io) && io.profileWrite.Stored? && io.reread
  }

  /** The row the pass adopts parks the slot's own, spent generation. */
  ghost predicate AdoptsItself(w: World, slot: Slot, io: InputIO, j: RowId) {
    && AdoptedRow(w.disk, slot, io, j)
    && Fingerprint(w.disk.backups[slot]) in w.issued
    && Fingerprint(w.disk.entries[j]) == Fingerprint(w.disk.backups[slot])
  }

  /** The two ways a pass hands on a spent generation while nothing is tainted. */
  lemma SpentInputIff(w: World, step: Step)
    requires Inv(w) && w.tainted == {} && step.Enter? && Enabled(w, step)
    requires GateInput(w.disk, w.gates[step.pid].slot, step.input).kind == NoError
    ensures var (slot, io) := (w.gates[step.pid].slot, step.input);
      var i := GateInput(w.disk, slot, io);
      && i.current.Some?
      && (Fingerprint(i.current.value) in w.issued <==>
            if RevivesProfile(w, slot, io) then Fingerprint(io.profile.value) in w.issued
            else exists j :: AdoptsItself(w, slot, io, j))
      && (!RevivesProfile(w, slot, io) ==>
            forall j :: AdoptsItself(w, slot, io, j) ==> i.current == Some(w.disk.entries[j]))
      && (RevivesProfile(w, slot, io) ==> i.current == io.profile)
  {
    var slot, io := w.gates[step.pid].slot, step.input;
    var i := GateInput(w.disk, slot, io);
    InputCurrent(w.disk, slot, io);
    var held := Fingerprint(w.disk.backups[slot]);
    assert SlotOk(w, slot) && GateOk(w, step.pid);
    if !RevivesProfile(w, slot, io) {
      if held in w.issued {
        var id :| Parks(w.disk, id, slot, held);
        LiveRowIsAdopted(w.disk, slot, io, id);
        var j :| AdoptedRow(w.disk, slot, io, j)
          && (i.current == Some(w.disk.entries[j]) || (TookProfile(w.disk, slot, io) && i.current == io.profile));
        assert RowOk(w, j);
        assert Fingerprint(w.disk.entries[j]) == held ==> AdoptsItself(w, slot, io, j);
      } else {
        AdvancedIsUnspent(w, slot, io, i.current.value);
      }
    }
  }

  /**
   * Exactly when one-time use fails in a reachable state in which nothing is
   * tainted: a session profile shows a spent generation, ahead of the slot's by
   * its expiry, and its adoption is stored and read back; or the row adopted
   * parks the slot's own generation, which has been spent since. And it is
   * POSTed.
   */
  lemma RespendsIff(w: World, steps: seq<Step>, step: Step)
    requires Init(w) && Legal(w, steps) && After(w, steps).tainted == {}
    requires step.Enter? && Enabled(After(w, steps), step)
    ensures var now := After(w, steps);
      var (slot, io) := (now.gates[step.pid].slot, step.input);
      (Posted(now, step).Some? && Fingerprint(Posted(now, step).value) in now.issued) <==>
        if RevivesProfile(now, slot, io) then
          && Fingerprint(io.profile.value) in now.issued
          && Decide(io.profile.value, step.snapshot, step.nowMs).Post?
        else
          && io.roster
          && exists j :: AdoptsItself(now, slot, io, j) && Decide(now.disk.entries[j], step.snapshot, step.nowMs).Post?
  {
    InitInv(w);
    RunKeepsInv(w, steps);
    var now := After(w, steps);
    var (slot, io) := (now.gates[step.pid].slot, step.input);
    if GateInput(now.disk, slot, io).kind == NoError {
      SpentInputIff(now, step);
    }
  }

  /** A spent generation's successor is settled once: no later step changes it while untainted. */
  lemma SuccessorIsFinal(w: World, steps: seq<Step>, step: Step, fp: Fp)
    requires Init(w) && Legal(w, steps) && Enabled(After(w, steps), step)
    requires fp in After(w, steps).issued && fp !in After(w, steps).tainted
    ensures fp in Next(After(w, steps), step).issued
    ensures Next(After(w, steps), step).issued[fp] == After(w, steps).issued[fp]
  {
    InitInv(w);
    RunKeepsInv(w, steps);
    if step.Answer? {
      assert GateOk(After(w, steps), step.pid);
    }
  }

  /** What an unhindered pass over a spent, untainted generation adopts. */
  lemma RecoveryAdopts(w: World, slot: Slot, io: InputIO)
    requires Inv(w) && slot in w.disk.backups && SlotOk(w, slot) && Unhindered(w.disk, slot, io)
    requires Fingerprint(w.disk.backups[slot]) in w.issued && Fingerprint(w.disk.backups[slot]) !in w.tainted
    requires !InHand(w, slot, Fingerprint(w.disk.backups[slot]))
    ensures var r := GateInput(w.disk, slot, io);
      var fp := Fingerprint(w.disk.backups[slot]);
      r.kind == NoError && exists j ::
        && Earliest(w.disk, slot, fp, j) && j !in r.disk.rows
        && r.current == Some(Handed(io, w.disk.entries[j]))
        && r.disk.backups == w.disk.backups[slot := Left(io, w.disk.entries[j])]
        && (Fingerprint(w.disk.entries[j]) == fp || w.disk.entries[j] == w.issued[fp])
  {
    var fp := Fingerprint(w.disk.backups[slot]);
    var id :| Parks(w.disk, id, slot, fp);
    UnhinderedAdopts(w.disk, slot, io, id);
    var r := GateInput(w.disk, slot, io);
    var j :| Earliest(w.disk, slot, fp, j) && j !in r.disk.rows
      && r.current == Some(Handed(io, w.disk.entries[j]))
      && r.disk.backups == w.disk.backups[slot := Left(io, w.disk.entries[j])];
    assert RowOk(w, j);
  }

  lemma PostedIsCurrent(w: World, step: Step)
    requires step.Enter? && Enabled(w, step)
    ensures var i := GateInput(w.disk, w.gates[step.pid].slot, step.input);
      && Next(w, step).disk == i.disk
      && (Posted(w, step).Some? ==> Posted(w, step) == i.current)
  {
  }

  /**
   * Pending-persist recovery. In every reachable state where a slot holds a
   * spent, untainted generation and a gate has just taken the slot's lock, an
   * unhindered pass retires the earliest live row and installs what it parks, or
   * a session profile's copy that is ahead of that. Unless some row parks the
   * generation itself, what is parked is the successor the generation was given,
   * and the spent generation is POSTed only when the profile brings it back.
   */
  lemma PendingPersistRecovery(w: World, steps: seq<Step>, pid: Pid, snapshot: Cred, nowMs: int, io: InputIO)
    requires Init(w) && Legal(w, steps) && Enabled(After(w, steps), Enter(pid, snapshot, nowMs, io))
    requires var now := After(w, steps);
      var slot := now.gates[pid].slot;
      && slot in now.disk.backups && Unhindered(now.disk, slot, io)
      && Fingerprint(now.disk.backups[slot]) in now.issued
      && Fingerprint(now.disk.backups[slot]) !in now.tainted
    ensures var now := After(w, steps);
      var slot := now.gates[pid].slot;
      var fp := Fingerprint(now.disk.backups[slot]);
      var step := Enter(pid, snapshot, nowMs, io);
      var then' := Next(now, step);
      exists j :: Earliest(now.disk, slot, fp, j) && j !in then'.disk.rows
        && then'.disk.backups == now.disk.backups[slot := Left(io, now.disk.entries[j])]
        && (Posted(now, step).Some? ==> Posted(now, step) == Some(Handed(io, now.disk.entries[j])))
        && (!ParksItself(now.disk, slot, fp) ==>
              && now.disk.entries[j] == now.issued[fp] && Fingerprint(now.disk.entries[j]) != fp
              && Unspent(now, Fingerprint(now.issued[fp])))
  {
    InitInv(w);
    RunKeepsInv(w, steps);
    var now := After(w, steps);
    var slot := now.gates[pid].slot;
    var fp := Fingerprint(now.disk.backups[slot]);
    assert SlotOk(now, slot) && GateOk(now, pid);
    RecoveryAdopts(now, slot, io);
    PostedIsCurrent(now, Enter(pid, snapshot, nowMs, io));
    var r := GateInput(now.disk, slot, io);
    var j :| Earliest(now.disk, slot, fp, j) && j !in r.disk.rows
      && r.current == Some(Handed(io, now.disk.entries[j]))
      && r.disk.backups == now.disk.backups[slot := Left(io, now.disk.entries[j])]
      && (Fingerprint(now.disk.entries[j]) == fp || now.disk.entries[j] == now.issued[fp]);
    assert RowOk(now, j);
  }
}
