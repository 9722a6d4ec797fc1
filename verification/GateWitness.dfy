// Why a parked successor must carry a new refresh token.

module GateWitness {
  import opened Base
  import opened OAuth
  import opened GateSpec
  import opened GateProtocol

  const OLD := Blob("g", "a0", 0, map[], map[])
  const SAME := Blob("g", "a1", 0, map[], map[])
  const NEW := Blob("h", "a2", 0, map[], map[])
  const G := Token("g")

  function Reads(purge: map<RowId, PurgeIO>): InputIO {
    InputIO(true, true, ManifestOk, {}, Stored, purge, true, None, true, Stored, true)
  }

  const START := World(Disk(map[1 := OLD], map[], map[]), map[], map[], map[], map[G := 1], {})

  const ROW := Row(1, PersistFailed, Some(G))

  /** The endpoint keeps the refresh token, and the persist fails: the first row holds generation g itself. */
  const FIRST: seq<Step> := [
    Begin(7, 1),
    Enter(7, OLD, 0, Reads(map[])),
    Answer(7, 0, Granted("a1", "", 0, "")),
    Settle(7, PersistIO(true, true, false, NotStored, RowWritten(1)))
  ]

  /** The row is adopted but its file cannot be removed; g is refreshed for a new token, and the persist fails again. */
  const SECOND: seq<Step> := [
    Begin(7, 1),
    Enter(7, SAME, 0, Reads(map[1 := PurgeIO(FileStuck, false)])),
    Answer(7, 0, Granted("a2", "h", 0, "")),
    Settle(7, PersistIO(true, true, false, NotStored, RowWritten(2)))
  ]

  const PARKED := World(
    Disk(map[1 := OLD], map[1 := ROW], map[1 := SAME]), map[], map[], map[], map[G := 1], {})

  const DOUBLY := World(
    Disk(map[1 := SAME], map[1 := ROW, 2 := ROW], map[1 := SAME, 2 := NEW]),
    map[], map[], map[G := NEW], map[G := 1, Token("h") := 1], {})

  ghost predicate Leads(w: World, step: Step, w': World) {
    Enabled(w, step) && Next(w, step) == w'
  }

  lemma FourSteps(w: World, s: seq<Step>, w1: World, w2: World, w3: World, w4: World)
    requires |s| == 4
    requires Leads(w, s[0], w1) && Leads(w1, s[1], w2) && Leads(w2, s[2], w3) && Leads(w3, s[3], w4)
    ensures Legal(w, s) && After(w, s) == w4
  {
    assert s[3..][1..] == [] && s[2..][1..] == s[3..] && s[1..][1..] == s[2..];
    assert Legal(w4, s[3..][1..]);
    assert Legal(w3, s[3..]) && After(w3, s[3..]) == w4;
    assert Legal(w2, s[2..]) && After(w2, s[2..]) == w4;
    assert Legal(w1, s[1..]) && After(w1, s[1..]) == w4;
  }

  lemma {:induction false} RunsCompose(w: World, a: seq<Step>, b: seq<Step>)
    requires Legal(w, a) && Legal(After(w, a), b)
    ensures Legal(w, a + b) && After(w, a + b) == After(After(w, a), b)
    decreases |a|
  {
    if a == [] {
      assert a + b == b;
    } else {
      assert (a + b)[1..] == a[1..] + b;
      RunsCompose(Next(w, a[0]), a[1..], b);
    }
  }

  /** With no gate row in it, a store hands on its own value. */
  lemma NothingToAdopt(d: Disk, io: InputIO)
    requires d.rows == map[] && 1 in d.backups && io == Reads(map[])
    ensures GateInput(d, 1, io) == Input(d, NoError, Some(d.backups[1]))
  {
    ScanUnique(d, 1, Fingerprint(d.backups[1]), io, Scanned(None, []));
  }

  /** The row with the least id is the one adopted. */
  lemma RowOneIsAdopted(d: Disk, io: InputIO)
    requires 1 in d.backups && Fingerprint(d.backups[1]) == G
    requires d.Live(1, 1, G) && (forall id :: id in d.rows ==> 1 <= id)
    requires io == Reads(io.purge)
    ensures GateInput(d, 1, io) ==
      Input(RetireAll(d.(backups := d.backups[1 := d.entries[1]]), [1], io.purge), NoError, Some(d.entries[1]))
  {
    assert Adoptable(d, 1, G, io.unreadable, 1);
    ScanUnique(d, 1, G, io, Scanned(Some(1), []));
    assert [] + [1] == [1];
  }

  lemma FirstSettles(w: World)
    requires w == START.(consume := map[1 := 7], gates := map[7 := Answered(1, OLD, SAME)])
    ensures Leads(w, FIRST[3], PARKED)
  {
    assert Persist(w.disk, 1, SAME, G, FIRST[3].persist) == Persisted(PARKED.disk, SAME, Some(PersistFailed));
  }

  const HELD := START.(consume := map[1 := 7])

  lemma OldEnters()
    ensures Leads(HELD.(gates := map[7 := Holding(1)]), Enter(7, OLD, 0, Reads(map[])), HELD.(gates := map[7 := Posting(1, OLD)]))
  {
    NothingToAdopt(START.disk, Reads(map[]));
    assert Note(START.home, START.disk, 1) == START.home;
  }

  lemma FirstPass()
    ensures Legal(START, FIRST) && After(START, FIRST) == PARKED
  {
    var w1 := HELD.(gates := map[7 := Holding(1)]);
    var w2 := HELD.(gates := map[7 := Posting(1, OLD)]);
    var w3 := HELD.(gates := map[7 := Answered(1, OLD, SAME)]);
    OldEnters();
    assert Leads(START, FIRST[0], w1) && Leads(w2, FIRST[2], w3);
    FirstSettles(w3);
    FourSteps(START, FIRST, w1, w2, w3, PARKED);
  }

  const ADOPTED := PARKED.(disk := PARKED.disk.(backups := map[1 := SAME]), consume := map[1 := 7])
  const POSTED := ADOPTED.(gates := map[7 := Posting(1, SAME)])
  const ANSWERED := ADOPTED.(gates := map[7 := Answered(1, SAME, NEW)],
                             issued := map[G := NEW], home := map[G := 1, Token("h") := 1])

  lemma SecondEnters()
    ensures Leads(PARKED.(consume := map[1 := 7], gates := map[7 := Holding(1)]), SECOND[1], POSTED)
  {
    var w := PARKED.(consume := map[1 := 7], gates := map[7 := Holding(1)]);
    RowOneIsAdopted(PARKED.disk, SECOND[1].input);
    var d := ADOPTED.disk;
    assert FateOf(SECOND[1].input.purge, 1) == PurgeIO(FileStuck, false);
    assert RetireAll(d, [1], SECOND[1].input.purge) == d;
    assert GateInput(w.disk, 1, SECOND[1].input) == Input(d, NoError, Some(SAME));
    assert Note(w.home, d, 1) == w.home;
  }

  lemma SecondSettles()
    ensures Leads(ANSWERED, SECOND[3], DOUBLY)
  {
    var p := Persist(ANSWERED.disk, 1, NEW, G, SECOND[3].persist);
    assert p == Persisted(DOUBLY.disk, NEW, Some(PersistFailed));
  }

  lemma SecondAnswers()
    ensures Leads(POSTED, SECOND[2], ANSWERED)
  {
  }

  lemma SecondPass()
    ensures Legal(PARKED, SECOND) && After(PARKED, SECOND) == DOUBLY
  {
    var w1 := PARKED.(consume := map[1 := 7], gates := map[7 := Holding(1)]);
    assert Leads(PARKED, SECOND[0], w1);
    SecondEnters();
    SecondAnswers();
    SecondSettles();
    FourSteps(PARKED, SECOND, w1, POSTED, ANSWERED, DOUBLY);
  }

  const THIRD := Begin(7, 1)
  const AGAIN := Enter(7, SAME, 0, Reads(map[]))

  lemma ThirdRespends()
    ensures Enabled(DOUBLY, THIRD) && Enabled(Next(DOUBLY, THIRD), AGAIN)
    ensures Posted(Next(DOUBLY, THIRD), AGAIN) == Some(SAME)
  {
    RowOneIsAdopted(DOUBLY.disk, AGAIN.input);
  }

  /**
   * What a row that parks its own generation can do: here is a run with nothing
   * tainted, no crash and every pass stored or stashed, in which a gate POSTs a
   * generation that was already refreshed.
   */
  lemma UnrotatedRowIsRespent()
    ensures Init(START) && Legal(START, FIRST + SECOND + [THIRD])
    ensures var now := After(START, FIRST + SECOND + [THIRD]);
      && now.tainted == {} && Enabled(now, AGAIN) && Posted(now, AGAIN) == Some(SAME) && Fingerprint(SAME) in now.issued
  {
    FirstPass();
    SecondPass();
    RunsCompose(START, FIRST, SECOND);
    ThirdRespends();
    assert [THIRD][1..] == [];
    assert Legal(Next(DOUBLY, THIRD), [THIRD][1..]);
    assert Legal(DOUBLY, [THIRD]) && After(DOUBLY, [THIRD]) == Next(DOUBLY, THIRD);
    RunsCompose(START, FIRST + SECOND, [THIRD]);
  }

  // --- a spent generation from an old session profile -----------------------

  /** The refresh rotates and is stored; nothing fails. */
  const STORED_PASS: seq<Step> := [
    Begin(7, 1),
    Enter(7, OLD, 0, Reads(map[])),
    Answer(7, 0, Granted("a2", "h", 0, "")),
    Settle(7, PersistIO(true, true, false, Stored, NothingWritten))
  ]

  const ADVANCED := World(
    Disk(map[1 := NEW], map[], map[]), map[], map[], map[G := NEW], map[G := 1, Token("h") := 1], {})

  /** An unflagged profile still shows generation g, with an expiry after the new one's. */
  const STALE := Blob("g", "a2", 9, map[], map[])

  const FRESHLY := HELD.(gates := map[7 := Answered(1, OLD, NEW)],
                         issued := map[G := NEW], home := map[G := 1, Token("h") := 1])

  const TAKES_STALE := Enter(7, NEW, 0, Reads(map[]).(profile := Some(STALE)))

  lemma StoredSettles()
    ensures Leads(FRESHLY, STORED_PASS[3], ADVANCED)
  {
    assert Persist(FRESHLY.disk, 1, NEW, G, STORED_PASS[3].persist) == Persisted(ADVANCED.disk, NEW, None);
  }

  lemma OldAnswers()
    ensures Leads(HELD.(gates := map[7 := Posting(1, OLD)]), STORED_PASS[2], FRESHLY)
  {
  }

  lemma StoredPass()
    ensures Legal(START, STORED_PASS) && After(START, STORED_PASS) == ADVANCED
  {
    var w1 := HELD.(gates := map[7 := Holding(1)]);
    var w2 := HELD.(gates := map[7 := Posting(1, OLD)]);
    OldEnters();
    assert Leads(START, STORED_PASS[0], w1);
    OldAnswers();
    StoredSettles();
    FourSteps(START, STORED_PASS, w1, w2, FRESHLY, ADVANCED);
  }

  lemma StaleIsTaken()
    ensures Enabled(ADVANCED, THIRD) && Enabled(Next(ADVANCED, THIRD), TAKES_STALE)
    ensures Posted(Next(ADVANCED, THIRD), TAKES_STALE) == Some(STALE)
  {
    var io := TAKES_STALE.input;
    ScanUnique(ADVANCED.disk, 1, Token("h"), io, Scanned(None, []));
    assert Adopt(ADVANCED.disk, 1, NEW, io) == Adopted(ADVANCED.disk, NoError, None);
    assert GateInput(ADVANCED.disk, 1, io) == Input(ADVANCED.disk.(backups := map[1 := STALE]), NoError, Some(STALE));
  }

  /**
   * What a spent profile can do: after a pass in which
   * nothing failed, a profile that still shows the spent generation is adopted
   * and POSTed.
   */
  lemma StaleProfileIsRespent()
    ensures Legal(START, STORED_PASS + [THIRD])
    ensures var now := After(START, STORED_PASS + [THIRD]);
      && now.tainted == {} && Enabled(now, TAKES_STALE)
      && Posted(now, TAKES_STALE) == Some(STALE) && Fingerprint(STALE) in now.issued
  {
    StoredPass();
    assert [THIRD][1..] == [];
    assert Legal(Next(ADVANCED, THIRD), [THIRD][1..]);
    assert Legal(ADVANCED, [THIRD]) && After(ADVANCED, [THIRD]) == Next(ADVANCED, THIRD);
    RunsCompose(START, STORED_PASS, [THIRD]);
    StaleIsTaken();
  }

  // --- a success that leaves the spent generation -----------------------------

  /** Nothing fails but that the process, pinned to the file since the re-read, takes the slot for removed. */
  const PINNED_PASS := PassIO(
    Reads(map[]), 0, Granted("a2", "h", 0, ""), [], PersistIO(true, true, true, Stored, RowWritten(1)))

  lemma SuccessLeavesSpent()
    ensures var p := ConsumeLocked(START.disk, 1, OLD, PINNED_PASS);
      && p.posted == Some(OLD) && p.outcome.err == NoError && p.outcome.cred == Some(NEW)
      && p.disk.backups == map[1 := OLD] && p.disk.Live(1, 1, G) && p.disk.entries[1] == NEW
  {
    NothingToAdopt(START.disk, Reads(map[]));
    assert Interfere(START.disk, []) == START.disk;
  }
}
