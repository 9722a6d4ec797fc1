// Session profiles and their coherence with the backup
// (internal/session/session.go, adoptLocked and PrepareSession of
// internal/switcher/session.go).

module ProfileSpec {
  import opened Base
  import opened OAuth
  import opened GateSpec

  /**
   * A copy of a credential. epoch is the number of non-adopting backup writes
   * there had been when its lineage began: with the last of them, or with a
   * login inside the profile after it.
   */
  datatype Copy = Copy(cred: Cred, epoch: nat)

  /**
   * A profile directory: the plaintext seed, its own Keychain item, the stale
   * flag beside it, whether Claude Code runs (or may run) in it, and whether it
   * is logged in as another account.
   */
  datatype Profile = Profile(
    present: bool, seed: Option<Copy>, item: Option<Copy>, stale: bool, busy: bool, drifted: bool)

  /** drop: the item delete took effect; unlink: the seed could be removed. */
  datatype DropIO = DropIO(drop: bool, unlink: bool, mark: bool, clear: bool)

  /** The item shadows the seed; one that cannot be read leaves the seed as the next-best truth. */
  function ReadCredentials(p: Profile, available: bool, itemReadable: bool): Option<Copy> {
    if !p.present then None
    else if available && itemReadable && p.item.Some? then p.item
    else p.seed
  }

  datatype Invalidated = Invalidated(profile: Profile, ok: bool)

  /** Drops the credential material; the stale flag is cleared only once the seed is gone. */
  function Invalidate(p: Profile, available: bool, io: DropIO): Invalidated {
    var p' := if available && io.drop then p.(item := None) else p;
    if p'.seed.Some? && !io.unlink then Invalidated(p', false)
    else Invalidated(p'.(seed := None, stale := p.stale && !io.clear), true)
  }

  function MarkStale(p: Profile, mark: bool): Profile {
    if mark then p.(stale := true) else p
  }

  /** Keeps a profile coherent after the backup moved. */
  function AfterBackupWrite(p: Profile, available: bool, io: DropIO): Profile {
    if !p.present then p
    else if p.busy then MarkStale(p, io.mark)
    else
      var i := Invalidate(p, available, io);
      if i.ok then i.profile else MarkStale(i.profile, io.mark)
  }

  /** How far a seeding gets: no usable config backup, no seed, no identity beside the seed, or all of it. */
  datatype SeedFate = NoConfigBackup | NoSeed | SeedOnly | Seeded

  /** Seeds the profile from the backup; an old item that stays shadows the seed. */
  function Bootstrap(p: Profile, available: bool, backup: Copy, drop: bool, fate: SeedFate): Profile {
    if fate.NoConfigBackup? then p
    else
      var p' := p.(present := true, item := if available && drop then None else p.item);
      match fate
      case NoSeed => p'
      case SeedOnly => p'.(seed := Some(backup))
      case _ => p'.(seed := Some(backup), drifted := false)
  }

  /** Ahead of a backup, or of none: there any expiry counts. */
  predicate Ahead(profile: Cred, backup: Option<Copy>) {
    if backup.Some? then ProfileAhead(profile, backup.value.cred) else profile.Blob? && profile.expiresAt > 0
  }

  /** What adoptLocked would write into the backup. */
  function AheadCopy(p: Profile, available: bool, itemReadable: bool, backup: Option<Copy>): Option<Copy> {
    if p.busy || p.stale || p.drifted then None
    else
      var c := ReadCredentials(p, available, itemReadable);
      if c.Some? && Ahead(c.value.cred, backup) then c else None
  }
}

module SessionProfile {
  import opened Base
  import opened ProfileSpec

  /** The profile's files, as one process changes them. */
  class ProfileDir {
    const available: bool
    var present: bool
    var seed: Option<Copy>
    var item: Option<Copy>
    var stale: bool
    var busy: bool
    var drifted: bool

    ghost function Contents(): Profile
      reads this
    {
      Profile(present, seed, item, stale, busy, drifted)
    }

    method Invalidate(io: DropIO) returns (ok: bool)
      modifies this
      ensures Invalidated(Contents(), ok) == ProfileSpec.Invalidate(old(Contents()), available, io)
    {
      if available && io.drop {
        item := None;
      }
      if seed.Some? {
        if !io.unlink {
          return false;
        }
        seed := None;
      }
      if io.clear {
        stale := false;
      }
      ok := true;
    }

    method AfterBackupWrite(io: DropIO)
      modifies this
      ensures Contents() == ProfileSpec.AfterBackupWrite(old(Contents()), available, io)
    {
      if !present {
        return;
      }
      var flag := busy;
      if !busy {
        var ok := Invalidate(io);
        flag := !ok;
      }
      if flag && io.mark {
        stale := true;
      }
    }

    method Bootstrap(backup: Copy, drop: bool, fate: SeedFate) returns (ok: bool)
      modifies this
      ensures Contents() == ProfileSpec.Bootstrap(old(Contents()), available, backup, drop, fate)
      ensures ok == fate.Seeded?
    {
      if fate.NoConfigBackup? {
        return false;
      }
      if available && drop {
        item := None;
      }
      present := true;
      if fate.NoSeed? {
        return false;
      }
      seed := Some(backup);
      if fate.SeedOnly? {
        return false;
      }
      drifted := false;
      ok := true;
    }
  }
}

/** Runs of backup writes, launches, in-session rotations and logins, and adoptions on one slot. */
module SessionRuns {
  import opened Base
  import opened OAuth
  import opened ProfileSpec

  /** writes counts the non-adopting backup writes so far. */
  datatype World = World(available: bool, backup: Option<Copy>, profile: Profile, writes: nat)

  datatype Step =
    | WriteBackup(cred: Cred, io: DropIO)
    | Launch(invalidate: DropIO, usable: bool, drop: bool, fate: SeedFate)
    | StartClaude
    | ExitClaude
    | Rotate(cred: Cred, migrates: bool)
    | LoginInside(cred: Cred, sameAccount: bool)
    | Adopt(itemReadable: bool, stored: bool)
    | RemoveProfile(drop: bool, gone: bool, clear: bool)

  ghost predicate Enabled(w: World, s: Step) {
    match s
    case StartClaude => w.profile.present
    case Rotate(_, _) => w.profile.busy && ReadCredentials(w.profile, w.available, true).Some?
    case LoginInside(_, _) => w.profile.busy
    case RemoveProfile(_, _, _) => !w.profile.busy
    case _ => true
  }

  /** Claude Code writes its Keychain item where there is one, else the seed. */
  function Put(p: Profile, available: bool, c: Copy, migrates: bool): Profile {
    if available then p.(item := Some(c), seed := if migrates then None else p.seed) else p.(seed := Some(c))
  }

  /** The locked part of PrepareSession: a flagged idle profile is invalidated, then reused or seeded. */
  function LaunchNext(w: World, s: Step): Profile
    requires s.Launch?
  {
    var p := w.profile;
    var i := if p.stale && !p.busy then Invalidate(p, w.available, s.invalidate) else Invalidated(p, true);
    if !i.ok || (i.profile.present && s.usable) || i.profile.busy || w.backup.None? then i.profile
    else Bootstrap(i.profile, w.available, w.backup.value, s.drop, s.fate)
  }

  ghost function Next(w: World, s: Step): World
    requires Enabled(w, s)
  {
    match s
    case WriteBackup(cred, io) =>
      w.(backup := Some(Copy(cred, w.writes + 1)), writes := w.writes + 1,
         profile := AfterBackupWrite(w.profile, w.available, io))
    case Launch(_, _, _, _) => w.(profile := LaunchNext(w, s))
    case StartClaude => w.(profile := w.profile.(busy := true))
    case ExitClaude => w.(profile := w.profile.(busy := false))
    case Rotate(cred, migrates) =>
      var epoch := ReadCredentials(w.profile, w.available, true).value.epoch;
      w.(profile := Put(w.profile, w.available, Copy(cred, epoch), migrates))
    case LoginInside(cred, sameAccount) =>
      w.(profile := Put(w.profile, w.available, Copy(cred, w.writes), true).(drifted := !sameAccount))
    case Adopt(itemReadable, stored) =>
      var c := AheadCopy(w.profile, w.available, itemReadable, w.backup);
      if c.Some? && stored then w.(backup := c) else w
    case RemoveProfile(drop, gone, clear) =>
      w.(profile := Removed(w.profile, w.available, drop, gone, clear))
  }

  /** The directory must go before the flag does. */
  function Removed(p: Profile, available: bool, drop: bool, gone: bool, clear: bool): Profile {
    var p' := if p.present && available && drop then p.(item := None) else p;
    if p.present && !gone then p' else p'.(present := false, seed := None, stale := p.stale && !clear)
  }

  ghost predicate OlderThan(c: Option<Copy>, epoch: nat) {
    c.Some? && c.value.epoch < epoch
  }

  /** An unflagged profile shows, to some reader, a credential from before the last backup write. */
  ghost predicate Exposed(w: World) {
    && w.profile.present && !w.profile.stale
    && (OlderThan(w.profile.seed, w.writes) || OlderThan(w.profile.item, w.writes))
  }

  /** The backup is of the last write's lineage, and no copy is of a later one. */
  ghost predicate Sane(w: World) {
    && (w.backup.Some? ==> w.backup.value.epoch == w.writes)
    && (w.profile.seed.Some? ==> w.profile.seed.value.epoch <= w.writes)
    && (w.profile.item.Some? ==> w.available && w.profile.item.value.epoch <= w.writes)
    && (!w.profile.present ==> w.profile.seed.None? && !w.profile.busy)
    && (w.backup.None? ==> !w.profile.present)
  }

  ghost predicate Inv(w: World) {
    Sane(w) && !Exposed(w)
  }

  /** Exposed is about what readers see. */
  lemma ExposedIff(w: World)
    requires w.profile.item.Some? ==> w.available
    ensures Exposed(w) <==>
      && !w.profile.stale
      && exists readable :: OlderThan(ReadCredentials(w.profile, w.available, readable), w.writes)
  {
    var p := w.profile;
    if p.present && !p.stale {
      assert ReadCredentials(p, w.available, false) == p.seed;
      assert p.item.Some? ==> ReadCredentials(p, w.available, true) == p.item;
    }
  }

  /**
   * The steps after which an old session can undo a backup write, by what is
   * known before each. A write over a busy profile that is not flagged already
   * and cannot be; over an idle one whose item outlives a failed delete with no
   * flag left, or whose seed stays and cannot be flagged. A launch that clears
   * the flag over an old item the delete missed, and finds the profile usable,
   * has no backup to seed it from, or misses the item again; and a launch that
   * makes a missing profile anew where an old item was left behind.
   */
  ghost predicate Exposes(w: World, s: Step) {
    var p := w.profile;
    match s
    case WriteBackup(_, io) =>
      && p.present
      && if p.busy then !p.stale && !io.mark && (p.seed.Some? || p.item.Some?)
         else if p.seed.Some? && !io.unlink then !p.stale && !io.mark
         else p.item.Some? && !io.drop && (p.stale ==> io.clear)
    case Launch(io, usable, drop, fate) =>
      var reseeds := w.backup.Some? && !fate.NoConfigBackup?;
      && OlderThan(p.item, w.writes) && !p.busy
      && (p.stale ==> io.clear && !io.drop && (p.seed.None? || io.unlink))
      && if p.present then p.stale && (usable || !reseeds || !drop) else reseeds && !drop
    case _ => false
  }

  lemma WriteExposesIff(w: World, s: Step)
    requires Inv(w) && s.WriteBackup?
    ensures Sane(Next(w, s)) && (Exposed(Next(w, s)) <==> Exposes(w, s))
  {
  }

  /** Seeding over what a launch found or left. */
  lemma SeedingIsSane(w: World, p: Profile, drop: bool, fate: SeedFate)
    requires Sane(w.(profile := p)) && w.backup.Some? && !p.busy
    ensures Sane(w.(profile := Bootstrap(p, w.available, w.backup.value, drop, fate)))
  {
  }

  lemma LaunchIsSane(w: World, s: Step)
    requires Inv(w) && s.Launch?
    ensures Sane(Next(w, s))
  {
    var p := w.profile;
    var i := if p.stale && !p.busy then Invalidate(p, w.available, s.invalidate) else Invalidated(p, true);
    if w.backup.Some? && !i.profile.busy {
      SeedingIsSane(w, i.profile, s.drop, s.fate);
    }
  }

  lemma LaunchExposesIff(w: World, s: Step)
    requires Inv(w) && s.Launch?
    ensures Sane(Next(w, s)) && (Exposed(Next(w, s)) <==> Exposes(w, s))
  {
    LaunchIsSane(w, s);
    var p := w.profile;
    var i := if p.stale && !p.busy then Invalidate(p, w.available, s.invalidate) else Invalidated(p, true);
    assert i.ok ==> i.profile.stale == (p.stale && (p.busy || !s.invalidate.clear));
  }

  /** Exactly those steps expose an old session, and all others keep the invariant. */
  lemma ExposesIff(w: World, s: Step)
    requires Inv(w) && Enabled(w, s)
    ensures Exposed(Next(w, s)) <==> Exposes(w, s)
    ensures Inv(Next(w, s)) <==> !Exposes(w, s)
  {
    match s
    case WriteBackup(_, _) => WriteExposesIff(w, s);
    case Launch(_, _, _, _) => LaunchExposesIff(w, s);
    case _ =>
  }

  /** What exposure leads to: an adoption that puts the backup back before its last write. */
  lemma AdoptUndoesIff(w: World, s: Step)
    requires s.Adopt? && (w.backup.Some? ==> w.backup.value.epoch == w.writes)
    ensures var c := ReadCredentials(w.profile, w.available, s.itemReadable);
      OlderThan(Next(w, s).backup, w.writes) <==>
        && s.stored && OlderThan(c, w.writes)
        && !w.profile.busy && !w.profile.stale && !w.profile.drifted
        && var cred := c.value.cred;
           && cred.Blob?
           && (w.backup.None? ==> cred.expiresAt > 0)
           && (w.backup.Some? ==>
                 var prior := w.backup.value.cred;
                 && !(RefreshToken(cred) == RefreshToken(prior) && (cred.refresh == "" ==> cred == prior))
                 && cred.expiresAt > if prior.Blob? then prior.expiresAt else 0)
  {
    var c := ReadCredentials(w.profile, w.available, s.itemReadable);
    if c.Some? && w.backup.Some? {
      SameGenerationIff(c.value.cred, w.backup.value.cred);
    }
  }

  ghost predicate Init(w: World) {
    w.writes == 0 && w.backup.None? && w.profile == Profile(false, None, None, false, false, false)
  }

  ghost predicate Legal(w: World, steps: seq<Step>)
    decreases |steps|
  {
    steps == [] || (Enabled(w, steps[0]) && Legal(Next(w, steps[0]), steps[1..]))
  }

  ghost function After(w: World, steps: seq<Step>): World
    requires Legal(w, steps)
    decreases |steps|
  {
    if steps == [] then w else After(Next(w, steps[0]), steps[1..])
  }

  /** No step of the run exposes an old session. */
  ghost predicate Safe(w: World, steps: seq<Step>)
    requires Legal(w, steps)
    decreases |steps|
  {
    steps == [] || (!Exposes(w, steps[0]) && Safe(Next(w, steps[0]), steps[1..]))
  }

  lemma {:induction false} RunKeepsInv(w: World, steps: seq<Step>)
    requires Inv(w) && Legal(w, steps) && Safe(w, steps)
    ensures Inv(After(w, steps))
    decreases |steps|
  {
    if steps != [] {
      ExposesIff(w, steps[0]);
      RunKeepsInv(Next(w, steps[0]), steps[1..]);
    }
  }

  /**
   * A re-login is never undone by an old session. After any run in which no
   * step exposes one, a profile that is not flagged stale shows only
   * credentials whose lineage began no earlier than the last non-adopting
   * backup write, and so does the backup; hence an adoption that changes the
   * backup takes it from an idle, unflagged profile of the same account, never
   * goes back before that write, and moves to a later expiry.
   */
  lemma ReloginNeverUndone(w: World, steps: seq<Step>, s: Step)
    requires Init(w) && Legal(w, steps) && Safe(w, steps) && s.Adopt? && Enabled(After(w, steps), s)
    ensures var now := After(w, steps);
      && (now.backup.Some? ==> now.backup.value.epoch == now.writes)
      && (!now.profile.stale ==>
            forall readable :: ReadCredentials(now.profile, now.available, readable).Some? ==>
              ReadCredentials(now.profile, now.available, readable).value.epoch == now.writes)
    ensures var now := After(w, steps);
      var then' := Next(now, s);
      then'.backup != now.backup ==>
        && now.backup.Some? && then'.backup.Some?
        && then'.backup.value.epoch == now.writes
        && !now.profile.busy && !now.profile.stale && !now.profile.drifted
        && then'.backup.value.cred.Blob?
        && then'.backup.value.cred.expiresAt
             > (if now.backup.value.cred.Blob? then now.backup.value.cred.expiresAt else 0)
  {
    RunKeepsInv(w, steps);
  }

  const OLD := Blob("old", "a", 900, map[], map[])
  const RELOGIN := Blob("new", "b", 800, map[], map[])
  const FINE := DropIO(true, true, true, true)

  const LOGGED_IN := World(
    true, Some(Copy(OLD, 1)), Profile(true, None, Some(Copy(OLD, 1)), false, false, false), 1)

  /**
   * The Keychain delete whose failure Invalidate ignores: the session's item
   * survives a re-login unflagged, and the next adoption puts the old lineage
   * back over it.
   */
  lemma SilentDeleteFailureUndoesRelogin()
    ensures var login := WriteBackup(RELOGIN, FINE.(drop := false));
      && Inv(LOGGED_IN) && Enabled(LOGGED_IN, login)
      && Next(LOGGED_IN, login).backup == Some(Copy(RELOGIN, 2))
      && Enabled(Next(LOGGED_IN, login), Adopt(true, true))
      && Next(Next(LOGGED_IN, login), Adopt(true, true)).backup == Some(Copy(OLD, 1))
  {
  }

  /**
   * The same through a launch, although the re-login set the flag: the profile
   * was busy then; once it is idle, a launch clears the flag over the item its
   * delete missed, and finds the profile usable.
   */
  lemma LaunchUndoesRelogin()
    ensures var busy := LOGGED_IN.(profile := LOGGED_IN.profile.(busy := true));
      var steps := [
        WriteBackup(RELOGIN, FINE), ExitClaude, Launch(FINE.(drop := false), true, true, Seeded), Adopt(true, true)];
      && Inv(busy) && Legal(busy, steps)
      && !Exposes(busy, steps[0]) && After(busy, steps).backup == Some(Copy(OLD, 1))
  {
    var busy := LOGGED_IN.(profile := LOGGED_IN.profile.(busy := true));
    var steps := [
      WriteBackup(RELOGIN, FINE), ExitClaude, Launch(FINE.(drop := false), true, true, Seeded), Adopt(true, true)];
    var w1 := Next(busy, steps[0]);
    var w2 := Next(w1, steps[1]);
    var w3 := Next(w2, steps[2]);
    var w4 := Next(w3, steps[3]);
    assert steps[1..][1..] == steps[2..] && steps[2..][1..] == steps[3..] && steps[3..][1..] == [];
    assert Legal(w3, steps[3..]) && After(w3, steps[3..]) == w4;
    assert Legal(w2, steps[2..]) && After(w2, steps[2..]) == w4;
    assert Legal(w1, steps[1..]) && After(w1, steps[1..]) == w4;
  }

  /** A profile re-pointed at another account is the slot's own again exactly when a launch seeds it to the end. */
  lemma DriftHealsIff(w: World, s: Step)
    requires s.Launch? && Enabled(w, s) && w.profile.drifted
    ensures var p := w.profile;
      var flagged := p.stale && !p.busy;
      !Next(w, s).profile.drifted <==>
        && s.fate.Seeded? && w.backup.Some? && !p.busy && !(p.present && s.usable)
        && (flagged && p.seed.Some? ==> s.invalidate.unlink)
  {
  }

  /** How far a seeding gets, place by place. */
  lemma SeedingIff(p: Profile, available: bool, backup: Copy, drop: bool, fate: SeedFate)
    ensures var q := Bootstrap(p, available, backup, drop, fate);
      && (q.present <==> p.present || !fate.NoConfigBackup?)
      && q.seed == (if fate.SeedOnly? || fate.Seeded? then Some(backup) else p.seed)
      && q.item == (if available && drop && !fate.NoConfigBackup? then None else p.item)
      && (q.drifted <==> p.drifted && !fate.Seeded?)
      && q.stale == p.stale && q.busy == p.busy
  {
  }
}
