// The quiet log (internal/autoswitch/quiet.go). Times are seconds.

module QuietSpec {
  import opened Base

  /** An event as the filter sees it: key is the poll's or the decision's summary. */
  datatype Event =
    | Poll(key: string, ts: real, body: string)
    | NoSwitch(key: string, ts: real, body: string)
    | Other(kind: string, ts: real, body: string)

  /** What the sink remembers, and what it has passed on. */
  datatype Sink = Sink(
    lastPollKey: string, lastPrinted: real, lastNoSwitch: string, held: Option<Event>, out: seq<Event>)

  /** lastPrinted of a new sink is long before any event, and no key is the empty string. */
  function Start(epoch: real): Sink {
    Sink("", epoch, "", None, [])
  }

  function Flush(q: Sink): Sink {
    match q.held
    case None => q
    case Some(ev) => q.(out := q.out + [ev], lastPrinted := ev.ts, held := None)
  }

  function Emit(q: Sink, heartbeat: real, ev: Event): Sink {
    match ev
    case Poll(key, ts, _) =>
      if key == q.lastPollKey && ts - q.lastPrinted < heartbeat then q.(held := Some(ev))
      else q.(held := None, lastPollKey := key, lastPrinted := ts, out := q.out + [ev])
    case NoSwitch(key, _, _) =>
      if q.held.Some? && key == q.lastNoSwitch then q.(held := None)
      else
        var f := Flush(q);
        f.(lastNoSwitch := key, out := f.out + [ev])
    case Other(_, _, _) =>
      var f := Flush(q);
      f.(out := f.out + [ev])
  }

  function EmitAll(epoch: real, heartbeat: real, log: seq<Event>): Sink
    decreases |log|
  {
    if log == [] then Start(epoch)
    else Emit(EmitAll(epoch, heartbeat, log[..|log| - 1]), heartbeat, log[|log| - 1])
  }
}

module Quiet {
  import opened Base
  import opened QuietSpec

  class QuietSink {
    const heartbeat: real
    var lastPollKey: string
    var lastPrinted: real
    var lastNoSwitch: string
    var held: Option<Event>
    var out: seq<Event>

    constructor (heartbeat: real, epoch: real)
      ensures this.heartbeat == (if heartbeat <= 0.0 then 3600.0 else heartbeat)
      ensures Contents() == Start(epoch)
    {
      this.heartbeat := if heartbeat <= 0.0 then 3600.0 else heartbeat;
      lastPollKey, lastPrinted, lastNoSwitch := "", epoch, "";
      held, out := None, [];
    }

    ghost function Contents(): Sink
      reads this
    {
      Sink(lastPollKey, lastPrinted, lastNoSwitch, held, out)
    }

    method Emit(ev: Event)
      modifies this
      ensures Contents() == QuietSpec.Emit(old(Contents()), heartbeat, ev)
    {
      match ev
      case Poll(key, ts, _) =>
        held := None;
        if key == lastPollKey && ts - lastPrinted < heartbeat {
          held := Some(ev);
          return;
        }
        lastPollKey := key;
        lastPrinted := ts;
        out := out + [ev];
      case NoSwitch(key, _, _) =>
        if held.Some? && key == lastNoSwitch {
          held := None;
          return;
        }
        Flush();
        lastNoSwitch := key;
        out := out + [ev];
      case Other(_, _, _) =>
        Flush();
        out := out + [ev];
    }

    method Flush()
      modifies this
      ensures Contents() == QuietSpec.Flush(old(Contents()))
    {
      if held.None? {
        return;
      }
      out := out + [held.value];
      lastPrinted := held.value.ts;
      held := None;
    }
  }
}

/** What a reader of the quiet log still learns. */
module QuietLaws {
  import opened Base
  import opened QuietSpec

  /** The keys of one kind of event, in order, each run of equal keys once. */
  function Dedup(last: string, log: seq<Event>, polls: bool): seq<string>
    decreases |log|
  {
    if log == [] then []
    else if (if polls then log[0].Poll? else log[0].NoSwitch?) && log[0].key != last
    then [log[0].key] + Dedup(log[0].key, log[1..], polls)
    else Dedup(last, log[1..], polls)
  }

  /** The last key of one kind, or last when there is none. */
  function LastKey(last: string, log: seq<Event>, polls: bool): string
    decreases |log|
  {
    if log == [] then last
    else LastKey(if (if polls then log[0].Poll? else log[0].NoSwitch?) then log[0].key else last, log[1..], polls)
  }

  function Others(log: seq<Event>): seq<Event> {
    if log == [] then []
    else if log[0].Other? then [log[0]] + Others(log[1..]) else Others(log[1..])
  }

  lemma {:induction false} AppendOne(last: string, log: seq<Event>, ev: Event, polls: bool)
    ensures var mine := if polls then ev.Poll? else ev.NoSwitch?;
      && LastKey(last, log + [ev], polls) == (if mine then ev.key else LastKey(last, log, polls))
      && Dedup(last, log + [ev], polls)
         == Dedup(last, log, polls) + (if mine && ev.key != LastKey(last, log, polls) then [ev.key] else [])
    ensures Others(log + [ev]) == Others(log) + (if ev.Other? then [ev] else [])
    decreases |log|
  {
    if log == [] {
      assert [ev][1..] == [];
    } else {
      assert (log + [ev])[1..] == log[1..] + [ev];
      var mine := if polls then log[0].Poll? else log[0].NoSwitch?;
      AppendOne(if mine then log[0].key else last, log[1..], ev, polls);
    }
  }

  /** out is log with some events left out, at the strictly increasing positions at. */
  ghost predicate Embeds(out: seq<Event>, log: seq<Event>, at: seq<nat>) {
    && |at| == |out|
    && (forall i :: 0 <= i < |at| ==> at[i] < |log| && log[at[i]] == out[i])
    && (forall i, j :: 0 <= i < j < |at| ==> at[i] < at[j])
  }

  lemma EmbedsLonger(out: seq<Event>, log: seq<Event>, ev: Event, at: seq<nat>)
    requires Embeds(out, log, at)
    ensures Embeds(out, log + [ev], at)
    ensures Embeds(out + [ev], log + [ev], at + [|log|])
  {
  }

  /** What the sink has learned from the log so far, printed or not. */
  ghost predicate Follows(q: Sink, log: seq<Event>, at: seq<nat>) {
    && q.lastPollKey == LastKey("", log, true) == LastKey("", q.out, true)
    && q.lastNoSwitch == LastKey("", log, false) == LastKey("", q.out, false)
    && Dedup("", q.out, true) == Dedup("", log, true)
    && Dedup("", q.out, false) == Dedup("", log, false)
    && Others(q.out) == Others(log)
    && (if q.held.None? then Embeds(q.out, log, at)
        else log != [] && log[|log| - 1] == q.held.value && q.held.value.Poll?
             && q.held.value.key == q.lastPollKey && Embeds(q.out, log[..|log| - 1], at))
  }

  /** A held poll is the last event seen, so passing it on keeps the order. */
  lemma FlushFollows(q: Sink, log: seq<Event>, at: seq<nat>)
    requires Follows(q, log, at)
    ensures exists at' :: Follows(Flush(q), log, at')
  {
    if q.held.Some? {
      var n := |log| - 1;
      assert log == log[..n] + [log[n]];
      EmbedsLonger(q.out, log[..n], q.held.value, at);
      AppendOne("", q.out, q.held.value, true);
      AppendOne("", q.out, q.held.value, false);
      assert Follows(Flush(q), log, at + [n]);
    } else {
      assert Follows(Flush(q), log, at);
    }
  }

  /** The sink after passing ev on at once. */
  function Passed(q: Sink, ev: Event, printed: real): Sink {
    q.(out := q.out + [ev],
       lastPrinted := printed,
       lastPollKey := if ev.Poll? then ev.key else q.lastPollKey,
       lastNoSwitch := if ev.NoSwitch? then ev.key else q.lastNoSwitch)
  }

  lemma PassFollows(q: Sink, log: seq<Event>, ev: Event, at: seq<nat>, printed: real)
    requires Follows(q, log, at) && q.held.None?
    ensures Follows(Passed(q, ev, printed), log + [ev], at + [|log|])
  {
    EmbedsLonger(q.out, log, ev, at);
    AppendOne("", q.out, ev, true);
    AppendOne("", q.out, ev, false);
    AppendOne("", log, ev, true);
    AppendOne("", log, ev, false);
  }

  /** Forgetting a held poll leaves what was printed as it is. */
  lemma DropFollows(q: Sink, log: seq<Event>, at: seq<nat>)
    requires Follows(q, log, at)
    ensures Follows(q.(held := None), log, at)
  {
    if q.held.Some? {
      var n := |log| - 1;
      assert log == log[..n] + [log[n]];
      EmbedsLonger(q.out, log[..n], log[n], at);
    }
  }

  lemma HoldFollows(q: Sink, log: seq<Event>, ev: Event, at: seq<nat>)
    requires Follows(q, log, at) && q.held.None? && ev.Poll? && ev.key == q.lastPollKey
    ensures Follows(q.(held := Some(ev)), log + [ev], at)
  {
    assert (log + [ev])[..|log|] == log;
    AppendOne("", log, ev, true);
    AppendOne("", log, ev, false);
  }

  lemma SkipFollows(q: Sink, log: seq<Event>, ev: Event, at: seq<nat>)
    requires Follows(q, log, at) && q.held.None? && ev.NoSwitch? && ev.key == q.lastNoSwitch
    ensures Follows(q, log + [ev], at)
  {
    EmbedsLonger(q.out, log, ev, at);
    AppendOne("", log, ev, true);
    AppendOne("", log, ev, false);
  }

  lemma EmitFollows(q: Sink, heartbeat: real, log: seq<Event>, ev: Event, at: seq<nat>)
    requires Follows(q, log, at)
    ensures exists at' :: Follows(Emit(q, heartbeat, ev), log + [ev], at')
  {
    var q' := Emit(q, heartbeat, ev);
    DropFollows(q, log, at);
    var d := q.(held := None);
    if ev.Poll? {
      if q'.held.Some? {
        HoldFollows(d, log, ev, at);
        assert Follows(q', log + [ev], at);
      } else {
        PassFollows(d, log, ev, at, ev.ts);
        assert q' == Passed(d, ev, ev.ts);
      }
    } else if ev.NoSwitch? && q.held.Some? && ev.key == q.lastNoSwitch {
      SkipFollows(d, log, ev, at);
      assert Follows(q', log + [ev], at);
    } else {
      FlushFollows(q, log, at);
      var f := Flush(q);
      var at' :| Follows(f, log, at');
      PassFollows(f, log, ev, at', f.lastPrinted);
      assert q' == Passed(f, ev, f.lastPrinted);
    }
  }

  lemma {:induction false} LogFollows(epoch: real, heartbeat: real, log: seq<Event>)
    ensures exists at :: Follows(EmitAll(epoch, heartbeat, log), log, at)
    decreases |log|
  {
    if log == [] {
      var none: seq<nat> := [];
      assert Follows(EmitAll(epoch, heartbeat, log), log, none);
    } else {
      var n := |log| - 1;
      LogFollows(epoch, heartbeat, log[..n]);
      var q := EmitAll(epoch, heartbeat, log[..n]);
      var at :| Follows(q, log[..n], at);
      EmitFollows(q, heartbeat, log[..n], log[n], at);
      assert log[..n] + [log[n]] == log;
      assert EmitAll(epoch, heartbeat, log) == Emit(q, heartbeat, log[n]);
    }
  }

  /**
   * The quiet log is the full log with only repetition left out. For every
   * event sequence the output is an ordered subsequence of it, holds every
   * event of the other kinds in order, and shows the same succession of poll
   * summaries and the same succession of no-switch decisions.
   */
  lemma QuietIsStutterEquivalent(epoch: real, heartbeat: real, log: seq<Event>)
    ensures var out := EmitAll(epoch, heartbeat, log).out;
      && (exists at :: Embeds(out, log, at))
      && Others(out) == Others(log)
      && Dedup("", out, true) == Dedup("", log, true)
      && Dedup("", out, false) == Dedup("", log, false)
  {
    LogFollows(epoch, heartbeat, log);
    var q := EmitAll(epoch, heartbeat, log);
    var at :| Follows(q, log, at);
    DropFollows(q, log, at);
    assert Embeds(q.out, log, at);
  }

  /** The time of the last poll printed, or epoch before the first. */
  function LastPrinted(epoch: real, out: seq<Event>): real {
    if out == [] then epoch
    else if out[|out| - 1].Poll? then out[|out| - 1].ts
    else LastPrinted(epoch, out[..|out| - 1])
  }

  lemma PrintedAppend(epoch: real, out: seq<Event>, ev: Event)
    ensures LastPrinted(epoch, out + [ev]) == if ev.Poll? then ev.ts else LastPrinted(epoch, out)
  {
    assert (out + [ev])[..|out|] == out;
  }

  ghost predicate Tracked(epoch: real, q: Sink) {
    q.lastPrinted == LastPrinted(epoch, q.out) && (q.held.Some? ==> q.held.value.Poll?)
  }

  lemma FlushTracked(epoch: real, q: Sink)
    requires Tracked(epoch, q)
    ensures Tracked(epoch, Flush(q))
  {
    if q.held.Some? {
      PrintedAppend(epoch, q.out, q.held.value);
    }
  }

  lemma EmitTracked(epoch: real, heartbeat: real, q: Sink, ev: Event)
    requires Tracked(epoch, q)
    ensures Tracked(epoch, Emit(q, heartbeat, ev))
  {
    FlushTracked(epoch, q);
    PrintedAppend(epoch, q.out, ev);
    PrintedAppend(epoch, Flush(q).out, ev);
  }

  lemma {:induction false} PrintedIsTracked(epoch: real, heartbeat: real, log: seq<Event>)
    ensures Tracked(epoch, EmitAll(epoch, heartbeat, log))
    decreases |log|
  {
    if log != [] {
      PrintedIsTracked(epoch, heartbeat, log[..|log| - 1]);
      EmitTracked(epoch, heartbeat, EmitAll(epoch, heartbeat, log[..|log| - 1]), log[|log| - 1]);
    }
  }

  /**
   * Proof of life: after any log, a poll is printed at once when its summary
   * changed or a heartbeat has passed since the last poll printed, and only then.
   */
  lemma HeartbeatIff(epoch: real, heartbeat: real, log: seq<Event>, ev: Event)
    requires ev.Poll?
    ensures var q := EmitAll(epoch, heartbeat, log);
      var q' := Emit(q, heartbeat, ev);
      && (q'.out == q.out + [ev] <==>
            ev.key != LastKey("", log, true) || ev.ts - LastPrinted(epoch, q.out) >= heartbeat)
      && (q'.out == q.out + [ev] || (q'.out == q.out && q'.held == Some(ev)))
  {
    PrintedIsTracked(epoch, heartbeat, log);
    LogFollows(epoch, heartbeat, log);
    var q := EmitAll(epoch, heartbeat, log);
    var at :| Follows(q, log, at);
    assert |q.out + [ev]| == |q.out| + 1;
  }
}
