// What the engine reads off a snapshot, independently of how it computes it.

module Readings {
  import opened Base
  import opened Burn
  import opened SwitchRules

  /** Headroom is what the fullest window leaves; it is unknown only without a window. */
  lemma HeadroomIsTightest(s: Snapshot)
    ensures Headroom(s).None? <==> s.windows.None? || s.windows.value == []
    ensures Headroom(s).Some? ==>
      && (forall w :: w in s.windows.value ==> w.pct <= 100.0 - Headroom(s).value)
      && exists w :: w in s.windows.value && w.pct == 100.0 - Headroom(s).value
  {
    if Headroom(s).Some? {
      MaxPctIsGreatest(s.windows.value);
    }
  }

  lemma {:induction false} MaxPctIsGreatest(ws: seq<Window>)
    requires ws != []
    ensures forall w :: w in ws ==> w.pct <= MaxPct(ws)
    ensures exists w :: w in ws && w.pct == MaxPct(ws)
    decreases |ws|
  {
    var last := ws[|ws| - 1];
    if |ws| > 1 {
      var front := ws[..|ws| - 1];
      MaxPctIsGreatest(front);
      assert ws == front + [last];
      var w :| w in front && w.pct == MaxPct(front);
      assert w in ws && last in ws;
    } else {
      assert ws[0] in ws;
    }
  }

  /** The weekly reset is that of the seven-day window, 0 when there is none. */
  lemma {:induction false} SevenDayMeaning(ws: seq<Window>)
    ensures (forall w :: w in ws ==> w.name != "7d") ==> SevenDay(ws) == 0
    ensures (exists w :: w in ws && w.name == "7d") ==>
      exists w :: w in ws && w.name == "7d" && w.resetsAt == SevenDay(ws)
    decreases |ws|
  {
    if ws != [] {
      SevenDayMeaning(ws[1..]);
      assert ws == [ws[0]] + ws[1..];
      assert ws[0] in ws;
    }
  }

  /** Seconds left of the week, between an hour and a whole week; a whole week when unknown. */
  function SecondsLeft(resetsAt: int, now: real): int {
    var left := resetsAt - now.Floor;
    if resetsAt <= 0 || left > 604800 then 604800 else if left < 3600 then 3600 else left
  }

  /** The weekly pace spends exactly what the fullest weekly window has left by its reset, an hour at a time. */
  lemma PaceMeaning(s: Snapshot, now: real)
    requires Pace(s, now).Some?
    ensures s.windows.Some? && Binding(s.windows.value).Some?
    ensures var b := Binding(s.windows.value).value;
      Pace(s, now).value * SecondsLeft(b.resetsAt, now) as real == 3600.0 * if b.pct >= 100.0 then 0.0 else 100.0 - b.pct
  {
    var b := Binding(s.windows.value).value;
    HoursAreSeconds(b.resetsAt, now);
    var h := HoursLeft(b.resetsAt, now);
    var left := Max(100.0 - b.pct, 0.0);
    assert left / h * h == left;
  }

  lemma HoursAreSeconds(resetsAt: int, now: real)
    ensures HoursLeft(resetsAt, now) * 3600.0 == SecondsLeft(resetsAt, now) as real
  {
  }

  /**
   * A crossing is projected exactly when the account is measured, below the
   * threshold and burning, and at that rate reaches the threshold no later than
   * the engine can act on its next measurement: an interval after the poll that is
   * planned for it, or after three minutes from the last when none is.
   */
  lemma ProjectsIff(c: Config, t: Track, s: Snapshot, now: real)
    ensures Project(c, t, s, now).0 <==>
      && Headroom(s).Some? && s.age.Some?
      && var used := 100.0 - Headroom(s).value;
         var at := now - s.age.value;
         var next := if s.nextPollAt == 0.0 then at + 180.0 else s.nextPollAt;
         var rate := Rate(Observed(t, s.slot, at, used).samples);
         && used < c.threshold && rate.Some? && rate.value > 0.0
         && (c.threshold - used) / rate.value <= (if next > now then next - now else 0.0) + c.interval
  {
    if Headroom(s).Some? && s.age.Some? {
      var used := 100.0 - Headroom(s).value;
      var rate := Rate(Observed(t, s.slot, MeasuredAt(s, now), used).samples);
      if rate.Some? && rate.value > 0.0 {
        DivideIff(c.threshold - used, rate.value, Lookahead(c, s, now));
      }
    }
  }

  lemma DivideIff(x: real, r: real, t: real)
    requires r > 0.0
    ensures x / r <= t <==> x <= r * t
  {
    assert x / r * r == x;
    if x / r <= t {
      assert (t - x / r) * r >= 0.0;
    } else {
      assert (x / r - t) * r > 0.0;
    }
  }

  /**
   * The candidates a tick may consider: not the active account, not disabled or
   * quarantined, switchable, and with a credential that can be read and used.
   */
  lemma {:induction false} PickMeaning(
    snaps: seq<Snapshot>, activeSlot: int, quarantined: set<int>, switchable: set<int>, apiKeys: bool)
    ensures forall s :: s in Pick(snaps, activeSlot, quarantined, switchable, apiKeys) <==>
      && s in snaps && s.slot != activeSlot && !s.disabled
      && s.slot !in quarantined && s.slot in switchable
      && s.status != ReloginRequired && s.status != NoCredentials && s.status != KeychainUnavailable
      && (s.status == ApiKey <==> apiKeys)
    decreases |snaps|
  {
    if snaps != [] {
      PickMeaning(snaps[..|snaps| - 1], activeSlot, quarantined, switchable, apiKeys);
      assert snaps == snaps[..|snaps| - 1] + [snaps[|snaps| - 1]];
    }
  }

  predicate BySlots(snaps: seq<Snapshot>) {
    forall i, j :: 0 <= i < j < |snaps| ==> snaps[i].slot < snaps[j].slot
  }

  /** They keep the order in which they were collected. */
  lemma {:induction false} PickKeepsOrder(
    snaps: seq<Snapshot>, activeSlot: int, quarantined: set<int>, switchable: set<int>, apiKeys: bool)
    requires BySlots(snaps)
    ensures BySlots(Pick(snaps, activeSlot, quarantined, switchable, apiKeys))
    decreases |snaps|
  {
    if snaps != [] {
      var front, last := snaps[..|snaps| - 1], snaps[|snaps| - 1];
      PickKeepsOrder(front, activeSlot, quarantined, switchable, apiKeys);
      PickMeaning(front, activeSlot, quarantined, switchable, apiKeys);
      var ps := Pick(front, activeSlot, quarantined, switchable, apiKeys);
      forall i | 0 <= i < |ps| ensures ps[i].slot < last.slot {
        assert ps[i] in front;
        var k :| 0 <= k < |front| && front[k] == ps[i];
      }
    }
  }
}
