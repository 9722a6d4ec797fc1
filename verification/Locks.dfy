// Claude Code's directory locks (internal/locks/locks.go), and the order in
// which every locking path of the program takes its locks.

/** Directory locks on a file system shared with other processes. */
module Locks {
  /**
   * What other processes did to the lock directories since the last attempt;
   * broken: this attempt's mkdir fails for another reason than that it exists.
   */
  datatype Poll = Poll(removed: set<string>, created: set<string>, broken: bool)

  function After(others: set<string>, p: Poll): set<string> {
    others - p.removed + p.created
  }

  /** The attempt that ends the loop: one that is broken or finds path free, |polls| when none is. */
  function StopsAt(others: set<string>, path: string, polls: seq<Poll>): (k: nat)
    ensures k <= |polls|
    decreases |polls|
  {
    if polls == [] then 0
    else if polls[0].broken || path !in After(others, polls[0]) then 0
    else 1 + StopsAt(After(others, polls[0]), path, polls[1..])
  }

  /** The loop ends by taking the lock, not by an error or the deadline. */
  predicate Takes(others: set<string>, path: string, polls: seq<Poll>) {
    StopsAt(others, path, polls) < |polls| && !polls[StopsAt(others, path, polls)].broken
  }

  /** The others' directories after so many polls. */
  function AfterAll(others: set<string>, polls: seq<Poll>): set<string>
    decreases |polls|
  {
    if polls == [] then others else AfterAll(After(others, polls[0]), polls[1..])
  }

  /** Attempt k finds the directory gone, and no attempt so far was broken. */
  predicate FindsFree(others: set<string>, path: string, polls: seq<Poll>, k: nat) {
    && k < |polls| && path !in AfterAll(others, polls[..k + 1])
    && forall j :: 0 <= j <= k ==> !polls[j].broken
  }

  lemma FindsFreeLater(others: set<string>, path: string, polls: seq<Poll>, k: nat)
    requires polls != [] && !polls[0].broken
    ensures FindsFree(others, path, polls, k + 1) <==> FindsFree(After(others, polls[0]), path, polls[1..], k)
  {
    if k + 1 < |polls| {
      assert polls[..k + 2][1..] == polls[1..][..k + 1];
      assert forall j :: 0 <= j <= k ==> polls[1..][j] == polls[j + 1];
      if FindsFree(After(others, polls[0]), path, polls[1..], k) {
        forall j | 0 <= j <= k + 1 ensures !polls[j].broken {
          if j > 0 {
            assert polls[j] == polls[1..][j - 1];
          }
        }
      }
    }
  }

  /** The lock is taken exactly when some attempt finds the directory gone before any is broken. */
  lemma {:induction false} TakesIff(others: set<string>, path: string, polls: seq<Poll>)
    ensures Takes(others, path, polls) <==> exists k: nat :: FindsFree(others, path, polls, k)
    decreases |polls|
  {
    if polls != [] {
      var rest := After(others, polls[0]);
      TakesIff(rest, path, polls[1..]);
      assert polls[..1][1..] == [] && AfterAll(others, polls[..1]) == rest;
      if !polls[0].broken {
        if k: nat :| FindsFree(rest, path, polls[1..], k) {
          FindsFreeLater(others, path, polls, k);
        }
        if k: nat :| FindsFree(others, path, polls, k) {
          if k > 0 {
            FindsFreeLater(others, path, polls, k - 1);
          }
        }
        if path !in rest {
          assert FindsFree(others, path, polls, 0);
        }
      }
    }
  }

  /** The others' directories when an acquisition of path ends. */
  function Until(others: set<string>, path: string, polls: seq<Poll>): set<string>
    decreases |polls|
  {
    if polls == [] then others
    else if polls[0].broken || path !in After(others, polls[0]) then After(others, polls[0])
    else Until(After(others, polls[0]), path, polls[1..])
  }

  /** Other processes leave the locks of this one alone. */
  ghost predicate Respects(polls: seq<Poll>, mine: set<string>) {
    forall k :: 0 <= k < |polls| ==> polls[k].removed !! mine && polls[k].created !! mine
  }

  class LockFiles {
    var dirs: set<string>
    /** The directories that are other processes' locks. */
    ghost var others: set<string>

    constructor (present: set<string>)
      ensures dirs == others == present
    {
      dirs, others := present, present;
    }

    method Await(p: Poll)
      modifies this
      ensures dirs == After(old(dirs), p) && others == After(old(others), p)
    {
      dirs := After(dirs, p);
      others := After(others, p);
    }

    /** This process holds exactly mine. */
    ghost predicate Holding(mine: set<string>)
      reads this
    {
      dirs == others + mine && others !! mine
    }
  }

  class DirLock {
    const path: string
    var touching: bool

    constructor (path: string)
      ensures this.path == path && !touching
    {
      this.path := path;
      touching := false;
    }

    /** Mkdir until it succeeds, fails otherwise than by existing, or the polls and with them the deadline run out. */
    method Acquire(files: LockFiles, polls: seq<Poll>, ghost mine: set<string>) returns (ok: bool)
      requires !touching && files.Holding(mine) && path !in mine && Respects(polls, mine)
      modifies this, files
      ensures ok == touching == Takes(old(files.others), path, polls)
      ensures files.others == Until(old(files.others), path, polls)
      ensures files.Holding(if ok then mine + {path} else mine)
    {
      ok := false;
      var k := 0;
      while k < |polls|
        invariant 0 <= k <= |polls| && !touching && files.Holding(mine)
        invariant StopsAt(old(files.others), path, polls) == k + StopsAt(files.others, path, polls[k..])
        invariant Until(old(files.others), path, polls) == Until(files.others, path, polls[k..])
      {
        files.Await(polls[k]);
        if polls[k].broken {
          return false;
        }
        if path !in files.dirs {
          files.dirs := files.dirs + {path};
          touching := true;
          return true;
        }
        assert polls[k..][1..] == polls[k + 1..];
        k := k + 1;
      }
    }

    /** Drops the directory whoever made it. */
    method Release(files: LockFiles)
      modifies this, files
      ensures !touching
      ensures files.dirs == old(files.dirs) - {path} && files.others == old(files.others) - {path}
    {
      touching := false;
      files.dirs := files.dirs - {path};
      files.others := files.others - {path};
    }
  }

  ghost function Paths(ls: seq<DirLock>): set<string> {
    set l | l in ls :: l.path
  }

  ghost predicate Distinct(ls: seq<DirLock>) {
    forall i, j :: 0 <= i < j < |ls| ==> ls[i] != ls[j] && ls[i].path != ls[j].path
  }

  lemma PathsPrefix(ls: seq<DirLock>, i: nat)
    requires i < |ls|
    ensures Paths(ls[..i + 1]) == Paths(ls[..i]) + {ls[i].path}
    ensures Distinct(ls) ==> ls[i].path !in Paths(ls[..i])
  {
    assert ls[..i + 1] == ls[..i] + [ls[i]];
  }

  /** Releases in reverse order; a caller that holds them all gives up exactly these. */
  method ReleaseAll(ls: seq<DirLock>, files: LockFiles, ghost mine: set<string>)
    requires Distinct(ls) && Paths(ls) !! mine && files.Holding(mine + Paths(ls))
    modifies files, ls
    ensures forall l :: l in ls ==> !l.touching
    ensures files.others == old(files.others) && files.Holding(mine)
  {
    var i := |ls|;
    assert ls[..i] == ls;
    while i > 0
      invariant 0 <= i <= |ls|
      invariant forall j :: i <= j < |ls| ==> !ls[j].touching
      invariant files.others == old(files.others) && files.Holding(mine + Paths(ls[..i]))
    {
      i := i - 1;
      PathsPrefix(ls, i);
      ls[i].Release(files);
      assert ls[i].path !in mine;
    }
  }

  /** The others' directories when the acquisition of all ends, at its first failure or its last success. */
  ghost function UntilAll(others: set<string>, ls: seq<DirLock>, polls: seq<seq<Poll>>): set<string>
    requires |ls| == |polls|
    decreases |ls|
  {
    if ls == [] then others
    else
      var o := Until(others, ls[0].path, polls[0]);
      if !Takes(others, ls[0].path, polls[0]) then o else UntilAll(o, ls[1..], polls[1..])
  }

  ghost predicate AllFree(others: set<string>, ls: seq<DirLock>, polls: seq<seq<Poll>>)
    requires |ls| == |polls|
    decreases |ls|
  {
    ls == [] ||
    (Takes(others, ls[0].path, polls[0]) &&
     AllFree(Until(others, ls[0].path, polls[0]), ls[1..], polls[1..]))
  }

  /**
   * All or nothing: on failure none of the locks is held and the directories
   * are exactly what the other processes alone would have left.
   */
  method AcquireAll(ls: seq<DirLock>, files: LockFiles, polls: seq<seq<Poll>>, ghost mine: set<string>)
    returns (ok: bool)
    requires Distinct(ls) && |polls| == |ls| && Paths(ls) !! mine && files.Holding(mine)
    requires forall l :: l in ls ==> !l.touching
    requires forall i :: 0 <= i < |ls| ==> Respects(polls[i], mine + Paths(ls[..i]))
    modifies files, ls
    ensures ok == AllFree(old(files.others), ls, polls)
    ensures forall l :: l in ls ==> l.touching == ok
    ensures files.others == UntilAll(old(files.others), ls, polls)
    ensures files.Holding(if ok then mine + Paths(ls) else mine)
  {
    var i := 0;
    assert mine + Paths(ls[..0]) == mine;
    while i < |ls|
      invariant 0 <= i <= |ls|
      invariant forall j :: 0 <= j < |ls| ==> ls[j].touching == (j < i)
      invariant files.Holding(mine + Paths(ls[..i]))
      invariant AllFree(old(files.others), ls, polls) == AllFree(files.others, ls[i..], polls[i..])
      invariant UntilAll(old(files.others), ls, polls) == UntilAll(files.others, ls[i..], polls[i..])
    {
      PathsPrefix(ls, i);
      assert ls[i] in ls;
      assert ls[i..][1..] == ls[i + 1..] && polls[i..][1..] == polls[i + 1..];
      assert mine + (Paths(ls[..i]) + {ls[i].path}) == mine + Paths(ls[..i]) + {ls[i].path};
      var taken := ls[i].Acquire(files, polls[i], mine + Paths(ls[..i]));
      if !taken {
        ReleaseAll(ls[..i], files, mine);
        return false;
      }
      i := i + 1;
    }
    assert ls[..i] == ls;
    return true;
  }
}

/** The locks of the program, and what each of its paths does with them. */
module LockOrder {
  datatype Lock =
    | EngineState
    | Consume(slot: nat)
    | Cswap
    | Refresh(home: string)
    | Legacy(home: string)
    | Config(file: string)
    | Manifest
    | UsageStore

  const RANKS := 8

  function Rank(l: Lock): (r: nat)
    ensures r < RANKS
  {
    match l
    case EngineState => 0
    case Consume(_) => 1
    case Cswap => 2
    case Refresh(_) => 3
    case Legacy(_) => 4
    case Config(_) => 5
    case Manifest => 6
    case UsageStore => 7
  }

  /** Locking code: Locked is acquire, and then the body with its deferred release, or the timeout's code. */
  datatype Code =
    | Done
    | Then(first: Code, rest: Code)
    | Either(left: Code, right: Code)
    | Locked(lock: Lock, body: Code, timedOut: Code)

  function Maybe(c: Code): Code { Either(c, Done) }

  function Repeat(n: nat, c: Code): Code {
    if n == 0 then Done else Then(Maybe(c), Repeat(n - 1, c))
  }

  function Holding(l: Lock, body: Code): Code { Locked(l, body, Done) }

  // --- the paths; n bounds the stash rows a pass meets ----------------------

  /** stashCredential, and PurgeUnclaimed. */
  const MANIFEST_UPDATE := Holding(Manifest, Done)

  const USAGE_UPDATE := Holding(UsageStore, Done)

  function GateInput(n: nat): Code { Holding(Cswap, Repeat(n, MANIFEST_UPDATE)) }

  /** A timeout on cswap's lock stashes the successor without it. */
  const PERSIST := Locked(Cswap, Maybe(MANIFEST_UPDATE), MANIFEST_UPDATE)

  function ConsumeGrant(slot: nat, n: nat): Code {
    Holding(Consume(slot), Then(GateInput(n), Maybe(PERSIST)))
  }

  /** performSwitch's and activateLogin's transaction; AcquireAll takes the middle two. */
  function Transact(home: string, file: string, n: nat): Code {
    Holding(Cswap, Holding(Refresh(home), Holding(Legacy(home), Holding(Config(file), Repeat(n, MANIFEST_UPDATE)))))
  }

  function SwitchTo(slot: nat, home: string, file: string, n: nat): Code {
    Then(Maybe(Holding(Cswap, Done)),
    Then(Maybe(ConsumeGrant(slot, n)),
         Maybe(Transact(home, file, n))))
  }

  datatype Path =
    | Switch(slot: nat, home: string, file: string, n: nat)
    | CommitSwitch(slot: nat, home: string, file: string, n: nat)
    | MutateState
    | Grant(slot: nat, n: nat)
    | Collect(slot: nat, n: nat)
    | PurgeRow
    | Login(home: string, file: string)
    | AddToken
    | Move
    | PrepareSession(slot: nat, profile: string, n: nat)
    | ClaudeCode(home: string)

  function CodeOf(p: Path): Code {
    match p
    case Switch(slot, home, file, n) => SwitchTo(slot, home, file, n)
    case CommitSwitch(slot, home, file, n) => Holding(EngineState, Maybe(SwitchTo(slot, home, file, n)))
    case MutateState => Holding(EngineState, Done)
    case Grant(slot, n) => ConsumeGrant(slot, n)
    case Collect(slot, n) => Then(Repeat(2, ConsumeGrant(slot, n)), Maybe(USAGE_UPDATE))
    case PurgeRow => MANIFEST_UPDATE
    case Login(home, file) => Then(USAGE_UPDATE, Maybe(Transact(home, file, 0)))
    case AddToken => Holding(Cswap, Maybe(USAGE_UPDATE))
    case Move => Holding(Cswap, Done)
    case PrepareSession(slot, profile, n) =>
      Then(Maybe(Holding(Config(profile), Done)),
      Then(Maybe(Holding(Cswap, Done)),
      Then(Maybe(ConsumeGrant(slot, n)),
           Holding(Cswap, Maybe(Holding(Config(profile), Done))))))
    case ClaudeCode(home) => Holding(Refresh(home), Holding(Legacy(home), Done))
  }

  /** Every lock taken outranks the floor and every lock held around it. */
  predicate Ranked(c: Code, floor: int) {
    match c
    case Done => true
    case Then(a, b) => Ranked(a, floor) && Ranked(b, floor)
    case Either(a, b) => Ranked(a, floor) && Ranked(b, floor)
    case Locked(l, body, timedOut) => Rank(l) > floor && Ranked(body, Rank(l)) && Ranked(timedOut, floor)
  }

  lemma {:induction false} RepeatRanked(n: nat, c: Code, floor: int)
    requires Ranked(c, floor)
    ensures Ranked(Repeat(n, c), floor)
    decreases n
  {
    if n > 0 {
      RepeatRanked(n - 1, c, floor);
    }
  }

  lemma SwitchRanked(slot: nat, home: string, file: string, n: nat)
    ensures forall floor :: floor <= 0 ==> Ranked(ConsumeGrant(slot, n), floor)
    ensures forall floor :: floor <= 1 ==> Ranked(Transact(home, file, n), floor)
    ensures forall floor :: floor <= 0 ==> Ranked(SwitchTo(slot, home, file, n), floor)
  {
    RepeatRanked(n, MANIFEST_UPDATE, Rank(Cswap));
    RepeatRanked(n, MANIFEST_UPDATE, Rank(Config(file)));
    assert Ranked(GateInput(n), Rank(Consume(slot)));
    assert Ranked(Maybe(MANIFEST_UPDATE), Rank(Cswap)) && Ranked(MANIFEST_UPDATE, Rank(Consume(slot)));
    assert Ranked(Maybe(PERSIST), Rank(Consume(slot)));
    assert Ranked(Then(GateInput(n), Maybe(PERSIST)), Rank(Consume(slot)));
    assert Ranked(Holding(Config(file), Repeat(n, MANIFEST_UPDATE)), Rank(Legacy(home)));
    assert Ranked(Holding(Legacy(home), Holding(Config(file), Repeat(n, MANIFEST_UPDATE))), Rank(Refresh(home)));
    forall floor: int | floor <= 0 ensures Ranked(SwitchTo(slot, home, file, n), floor) {
      assert Ranked(Done, floor) && Ranked(ConsumeGrant(slot, n), floor);
      assert Ranked(Maybe(ConsumeGrant(slot, n)), floor) && Ranked(Maybe(Transact(home, file, n)), floor);
    }
  }

  /** The sets of locks that running the code may hold at some moment, on top of held. */
  function HeldSets(c: Code, held: set<Lock>): set<set<Lock>> {
    match c
    case Done => {held}
    case Then(a, b) => HeldSets(a, held) + HeldSets(b, held)
    case Either(a, b) => HeldSets(a, held) + HeldSets(b, held)
    case Locked(l, body, timedOut) => HeldSets(body, held + {l}) + HeldSets(timedOut, held)
  }

  /** A switch writes under cswap's lock and all three of Claude Code's. */
  lemma SwitchHolds(slot: nat, home: string, file: string, held: set<Lock>)
    ensures held + {Cswap, Refresh(home), Legacy(home), Config(file)} in HeldSets(SwitchTo(slot, home, file, 0), held)
    ensures held + {Consume(slot), Cswap} in HeldSets(SwitchTo(slot, home, file, 0), held)
  {
    var all := held + {Cswap, Refresh(home), Legacy(home), Config(file)};
    assert held + {Cswap} + {Refresh(home)} + {Legacy(home)} + {Config(file)} == all;
    assert held + {Consume(slot)} + {Cswap} == held + {Consume(slot), Cswap};
    var inner := Holding(Config(file), Repeat(0, MANIFEST_UPDATE));
    assert all in HeldSets(inner, held + {Cswap} + {Refresh(home)} + {Legacy(home)});
    assert all in HeldSets(Holding(Legacy(home), inner), held + {Cswap} + {Refresh(home)});
    assert all in HeldSets(Holding(Refresh(home), Holding(Legacy(home), inner)), held + {Cswap});
    assert all in HeldSets(Transact(home, file, 0), held);
    assert held + {Consume(slot), Cswap} in HeldSets(GateInput(0), held + {Consume(slot)});
    assert held + {Consume(slot), Cswap} in HeldSets(ConsumeGrant(slot, 0), held);
    assert all in HeldSets(Maybe(Transact(home, file, 0)), held);
    var rest := Then(Maybe(ConsumeGrant(slot, 0)), Maybe(Transact(home, file, 0)));
    assert held + {Consume(slot), Cswap} in HeldSets(Maybe(ConsumeGrant(slot, 0)), held);
    assert all in HeldSets(rest, held) && held + {Consume(slot), Cswap} in HeldSets(rest, held);
  }

  /** The engine switches under the state lock, so that another engine cannot commit in between. */
  lemma CommitHoldsState(slot: nat, home: string, file: string)
    ensures {Cswap, Refresh(home), Legacy(home), Config(file)} in HeldSets(CodeOf(Switch(slot, home, file, 0)), {})
    ensures {EngineState, Cswap, Refresh(home), Legacy(home), Config(file)} in
      HeldSets(CodeOf(CommitSwitch(slot, home, file, 0)), {})
  {
    SwitchHolds(slot, home, file, {});
    SwitchHolds(slot, home, file, {EngineState});
    assert {} + {Cswap, Refresh(home), Legacy(home), Config(file)} == {Cswap, Refresh(home), Legacy(home), Config(file)};
    assert {EngineState} + {Cswap, Refresh(home), Legacy(home), Config(file)} ==
      {EngineState, Cswap, Refresh(home), Legacy(home), Config(file)};
    assert {} + {EngineState} == {EngineState};
    assert {EngineState, Cswap, Refresh(home), Legacy(home), Config(file)} in
      HeldSets(Maybe(SwitchTo(slot, home, file, 0)), {EngineState});
  }

  /** Each locking path follows the one order. */
  lemma PathsRanked(p: Path)
    ensures Ranked(CodeOf(p), -1)
  {
    match p
    case Switch(slot, home, file, n) => SwitchRanked(slot, home, file, n);
    case CommitSwitch(slot, home, file, n) => SwitchRanked(slot, home, file, n);
    case Grant(slot, n) => SwitchRanked(slot, "", "", n);
    case Collect(slot, n) =>
      SwitchRanked(slot, "", "", n);
      RepeatRanked(2, ConsumeGrant(slot, n), -1);
    case Login(home, file) => SwitchRanked(0, home, file, 0);
    case PrepareSession(slot, profile, n) => SwitchRanked(slot, "", "", n);
    case _ =>
  }
}

/** Any number of processes running the locking paths. */
module LockRuns {
  import opened LockOrder

  datatype Frame = Do(code: Code) | Unlock(lock: Lock)

  /** What a process still has to do, innermost first. */
  type Stack = seq<Frame>

  /** The processes; a lock is held while some stack has still to unlock it. */
  type World = seq<Stack>

  predicate Holds(k: Stack, l: Lock) {
    Unlock(l) in k
  }

  predicate Free(w: World, l: Lock) {
    forall i :: 0 <= i < |w| ==> !Holds(w[i], l)
  }

  datatype Move = Go | Left | Right | TimeOut

  /** What process i's next move needs. */
  predicate Enabled(w: World, i: nat, m: Move) {
    && i < |w| && w[i] != []
    && match w[i][0]
       case Unlock(_) => m == Go
       case Do(Done) => m == Go
       case Do(Then(_, _)) => m == Go
       case Do(Either(_, _)) => m == Left || m == Right
       case Do(Locked(l, _, _)) => m == TimeOut || (m == Go && Free(w, l))
  }

  function Push(f: Frame, k: Stack): (r: Stack)
    ensures r != [] && r[0] == f && r[1..] == k
  {
    [f] + k
  }

  function Moved(k: Stack, m: Move): Stack
    requires k != []
  {
    var rest := k[1..];
    match k[0]
    case Unlock(_) => rest
    case Do(Done) => rest
    case Do(Then(a, b)) => Push(Do(a), Push(Do(b), rest))
    case Do(Either(a, b)) => Push(Do(if m == Left then a else b), rest)
    case Do(Locked(l, body, timedOut)) =>
      if m == TimeOut then Push(Do(timedOut), rest) else Push(Do(body), Push(Unlock(l), rest))
  }

  function Next(w: World, i: nat, m: Move): World
    requires Enabled(w, i, m)
  {
    w[i := Moved(w[i], m)]
  }

  /** The highest rank a stack holds. */
  function Top(k: Stack): int {
    if k == [] then -1
    else if k[0].Unlock? && Rank(k[0].lock) > Top(k[1..]) then Rank(k[0].lock)
    else Top(k[1..])
  }

  /** Every lock held, or still to be taken, outranks what is held around it. */
  predicate Ordered(k: Stack) {
    k == [] ||
    (Ordered(k[1..]) &&
     match k[0]
     case Do(c) => Ranked(c, Top(k[1..]))
     case Unlock(l) => Rank(l) > Top(k[1..]))
  }

  ghost predicate Inv(w: World) {
    && (forall i :: 0 <= i < |w| ==> Ordered(w[i]))
    && (forall i, j, l :: 0 <= i < |w| && 0 <= j < |w| && Holds(w[i], l) && Holds(w[j], l) ==> i == j)
  }

  lemma {:induction false} HeldIsBelowTop(k: Stack, l: Lock)
    requires Holds(k, l)
    ensures Rank(l) <= Top(k)
  {
    if k[0] != Unlock(l) {
      assert Unlock(l) in k[1..];
      HeldIsBelowTop(k[1..], l);
    }
  }

  lemma MovedStaysOrdered(k: Stack, m: Move)
    requires k != [] && Ordered(k)
    ensures Ordered(Moved(k, m))
  {
    match k[0]
    case Do(Then(a, b)) =>
      assert Top(Push(Do(b), k[1..])) == Top(k[1..]) && Ordered(Push(Do(b), k[1..]));
    case Do(Either(a, b)) =>
    case Do(Locked(l, body, timedOut)) =>
      assert Top(Push(Unlock(l), k[1..])) == Rank(l) && Ordered(Push(Unlock(l), k[1..]));
    case _ =>
  }

  lemma StepKeepsInv(w: World, i: nat, m: Move)
    requires Inv(w) && Enabled(w, i, m)
    ensures Inv(Next(w, i, m))
  {
    var v := Next(w, i, m);
    MovedStaysOrdered(w[i], m);
    forall l | Holds(v[i], l)
      ensures Holds(w[i], l) || (w[i][0].Do? && w[i][0].code.Locked? && m == Go && w[i][0].code.lock == l)
    {
    }
  }

  // --- runs -----------------------------------------------------------------

  datatype Event = Event(process: nat, move: Move)

  /** A process runs any sequence of the paths. */
  function Started(paths: seq<Path>): Stack {
    seq(|paths|, i requires 0 <= i < |paths| => Do(CodeOf(paths[i])))
  }

  ghost predicate Run(ws: seq<World>, es: seq<Event>, plans: seq<seq<Path>>) {
    && |ws| == |es| + 1
    && |ws[0]| == |plans|
    && (forall p :: 0 <= p < |plans| ==> ws[0][p] == Started(plans[p]))
    && (forall i :: 0 <= i < |es| ==>
          Enabled(ws[i], es[i].process, es[i].move) && ws[i + 1] == Next(ws[i], es[i].process, es[i].move))
  }

  lemma {:induction false} StartedOrdered(paths: seq<Path>)
    ensures Ordered(Started(paths)) && Top(Started(paths)) == -1
    decreases |paths|
  {
    if paths != [] {
      assert Started(paths)[1..] == Started(paths[1..]);
      StartedOrdered(paths[1..]);
      PathsRanked(paths[0]);
    }
  }

  lemma {:induction false} RunKeepsInv(ws: seq<World>, es: seq<Event>, plans: seq<seq<Path>>, n: nat)
    requires Run(ws, es, plans) && n < |ws|
    ensures Inv(ws[n]) && |ws[n]| == |plans|
    decreases n
  {
    if n == 0 {
      forall p | 0 <= p < |plans| ensures Ordered(ws[0][p]) {
        StartedOrdered(plans[p]);
      }
    } else {
      RunKeepsInv(ws, es, plans, n - 1);
      StepKeepsInv(ws[n - 1], es[n - 1].process, es[n - 1].move);
    }
  }

  predicate Waits(k: Stack) {
    k != [] && k[0].Do? && k[0].code.Locked?
  }

  /** i waits for a lock that j holds. */
  predicate WaitsFor(w: World, i: nat, j: nat) {
    i < |w| && j < |w| && Waits(w[i]) && Holds(w[j], w[i][0].code.lock)
  }

  lemma WaitsForHigher(w: World, i: nat, j: nat)
    requires Inv(w) && WaitsFor(w, i, j)
    ensures Top(w[i]) < Top(w[j]) < RANKS
  {
    HeldIsBelowTop(w[j], w[i][0].code.lock);
    TopIsRank(w[j]);
  }

  lemma {:induction false} TopIsRank(k: Stack)
    ensures -1 <= Top(k) < RANKS
  {
    if k != [] {
      TopIsRank(k[1..]);
    }
  }

  ghost predicate Chain(w: World, ps: seq<nat>) {
    forall i :: 0 <= i < |ps| - 1 ==> WaitsFor(w, ps[i], ps[i + 1])
  }

  lemma {:induction false} ChainClimbs(w: World, ps: seq<nat>, n: nat)
    requires Inv(w) && Chain(w, ps) && 0 < n < |ps|
    ensures ps[0] < |w| && ps[n] < |w| && Top(w[ps[0]]) < Top(w[ps[n]])
    decreases n
  {
    assert WaitsFor(w, ps[n - 1], ps[n]);
    WaitsForHigher(w, ps[n - 1], ps[n]);
    if n > 1 {
      ChainClimbs(w, ps, n - 1);
    }
  }

  /** Deadlock freedom: in no reachable world do processes wait for one another in a circle, one alone included. */
  lemma NoWaitCycle(ws: seq<World>, es: seq<Event>, plans: seq<seq<Path>>, n: nat, ps: seq<nat>)
    requires Run(ws, es, plans) && n < |ws|
    requires |ps| >= 2 && Chain(ws[n], ps)
    ensures ps[0] != ps[|ps| - 1]
  {
    RunKeepsInv(ws, es, plans, n);
    ChainClimbs(ws[n], ps, |ps| - 1);
  }

  /** Mutual exclusion. */
  lemma OneHolder(ws: seq<World>, es: seq<Event>, plans: seq<seq<Path>>, n: nat, i: nat, j: nat, l: Lock)
    requires Run(ws, es, plans) && n < |ws|
    requires i < |ws[n]| && j < |ws[n]| && Holds(ws[n][i], l) && Holds(ws[n][j], l)
    ensures i == j
  {
    RunKeepsInv(ws, es, plans, n);
  }

  // --- progress and termination ---------------------------------------------

  lemma {:induction false} SomeoneMoves(w: World, i: nat) returns (j: nat, m: Move)
    requires Inv(w) && i < |w| && w[i] != []
    ensures Enabled(w, j, m) && m != TimeOut
    decreases RANKS - Top(w[i])
  {
    j, m := i, if w[i][0].Do? && w[i][0].code.Either? then Left else Go;
    if Waits(w[i]) && !Free(w, w[i][0].code.lock) {
      var h: nat :| h < |w| && Holds(w[h], w[i][0].code.lock);
      WaitsForHigher(w, i, h);
      j, m := SomeoneMoves(w, h);
    }
  }

  function CodeSize(c: Code): nat {
    match c
    case Done => 1
    case Then(a, b) => 1 + CodeSize(a) + CodeSize(b)
    case Either(a, b) => 1 + CodeSize(a) + CodeSize(b)
    case Locked(_, body, timedOut) => 2 + CodeSize(body) + CodeSize(timedOut)
  }

  function Size(k: Stack): nat {
    if k == [] then 0 else (if k[0].Do? then CodeSize(k[0].code) else 1) + Size(k[1..])
  }

  function Work(w: World): nat {
    if w == [] then 0 else Size(w[0]) + Work(w[1..])
  }

  lemma PushGrows(f: Frame, k: Stack)
    ensures Size(Push(f, k)) == Size(k) + if f.Do? then CodeSize(f.code) else 1
  {
  }

  lemma MovedShrinks(k: Stack, m: Move)
    requires k != []
    ensures Size(Moved(k, m)) < Size(k)
  {
    var rest := k[1..];
    match k[0]
    case Do(Then(a, b)) =>
      PushGrows(Do(b), rest);
      PushGrows(Do(a), Push(Do(b), rest));
    case Do(Either(a, b)) =>
      PushGrows(Do(a), rest);
      PushGrows(Do(b), rest);
    case Do(Locked(l, body, timedOut)) =>
      PushGrows(Do(timedOut), rest);
      PushGrows(Unlock(l), rest);
      PushGrows(Do(body), Push(Unlock(l), rest));
    case _ =>
  }

  lemma {:induction false} UpdateShrinks(w: World, i: nat, k: Stack)
    requires i < |w| && Size(k) < Size(w[i])
    ensures Work(w[i := k]) < Work(w)
  {
    if i == 0 {
      assert w[0 := k][1..] == w[1..];
    } else {
      assert w[i := k][1..] == w[1..][i - 1 := k];
      UpdateShrinks(w[1..], i - 1, k);
    }
  }

  lemma {:induction false} RunShrinks(ws: seq<World>, es: seq<Event>, plans: seq<seq<Path>>, n: nat)
    requires Run(ws, es, plans) && n < |ws|
    ensures n + Work(ws[n]) <= Work(ws[0])
    decreases n
  {
    if n > 0 {
      var w, e := ws[n - 1], es[n - 1];
      RunShrinks(ws, es, plans, n - 1);
      MovedShrinks(w[e.process], e.move);
      UpdateShrinks(w, e.process, Moved(w[e.process], e.move));
    }
  }

  /**
   * No run goes on longer than its processes' code, and one that can go on
   * only by timing out, or not at all, is over: every process is done and
   * every lock is free.
   */
  lemma RunsFinish(ws: seq<World>, es: seq<Event>, plans: seq<seq<Path>>)
    requires Run(ws, es, plans)
    ensures |es| <= Work(ws[0])
    ensures (forall i, m :: Enabled(ws[|es|], i, m) ==> m == TimeOut) ==>
      (forall i :: 0 <= i < |ws[|es|]| ==> ws[|es|][i] == []) && forall l :: Free(ws[|es|], l)
  {
    var w := ws[|es|];
    RunShrinks(ws, es, plans, |es|);
    RunKeepsInv(ws, es, plans, |es|);
    if (forall i, m :: Enabled(w, i, m) ==> m == TimeOut) {
      forall i | 0 <= i < |w| ensures w[i] == [] {
        if w[i] != [] {
          var j, m := SomeoneMoves(w, i);
        }
      }
    }
  }
}
