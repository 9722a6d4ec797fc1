// The burn-rate tracker (internal/autoswitch/burn.go). Times are seconds.

module Burn {
  import opened Base

  const WINDOW := 1200.0
  const MIN_SPAN := 60.0

  datatype Sample = Sample(at: real, util: real)

  /** The account a tracker follows and its recent distinct measurements. */
  datatype Track = Track(slot: int, samples: seq<Sample>)

  function Trim(s: seq<Sample>, cut: real): seq<Sample> {
    if |s| > 1 && s[0].at < cut then Trim(s[1..], cut) else s
  }

  /** What one call of observe leaves. */
  function Observed(t: Track, slot: int, at: real, util: real): Track {
    var prior := if slot != t.slot then [] else t.samples;
    if prior != [] && at <= prior[|prior| - 1].at then Track(slot, prior)
    else
      var kept := if prior != [] && util < prior[|prior| - 1].util then [] else prior;
      Track(slot, Trim(kept + [Sample(at, util)], at - WINDOW))
  }

  predicate Rising(s: seq<Sample>) {
    forall i, j :: 0 <= i < j < |s| ==> s[i].at < s[j].at && s[i].util <= s[j].util
  }

  predicate Wellformed(s: seq<Sample>) {
    && Rising(s)
    && (forall i :: 0 <= i < |s| ==> s[|s| - 1].at - s[i].at <= 1200.0)
  }

  lemma {:induction false} TrimKeepsSuffix(s: seq<Sample>, cut: real)
    requires s != [] && Rising(s)
    ensures var t := Trim(s, cut);
      && t != [] && t[|t| - 1] == s[|s| - 1] && Rising(t)
      && (|t| == 1 || forall i :: 0 <= i < |t| ==> t[i].at >= cut)
    decreases |s|
  {
    if |s| > 1 && s[0].at < cut {
      TrimKeepsSuffix(s[1..], cut);
    } else if |s| > 1 {
      assert forall i :: 0 < i < |s| ==> s[0].at < s[i].at;
    }
  }

  lemma AppendRises(s: seq<Sample>, x: Sample)
    requires Rising(s) && (s == [] || (s[|s| - 1].at < x.at && s[|s| - 1].util <= x.util))
    ensures Rising(s + [x])
  {
    var t := s + [x];
    forall i, j | 0 <= i < j < |t| ensures t[i].at < t[j].at && t[i].util <= t[j].util {
      if j == |s| && i < |s| - 1 {
        assert s[i].at < s[|s| - 1].at && s[i].util <= s[|s| - 1].util;
      }
    }
  }

  lemma TrimmedWellformed(s: seq<Sample>)
    requires s != [] && Rising(s)
    ensures var t := Trim(s, s[|s| - 1].at - WINDOW);
      Wellformed(t) && t != [] && t[|t| - 1] == s[|s| - 1]
  {
    TrimKeepsSuffix(s, s[|s| - 1].at - WINDOW);
  }

  /** A measurement later than all before it is appended, after a fall on its own. */
  lemma AcceptedWellformed(prior: seq<Sample>, x: Sample)
    requires Wellformed(prior) && (prior == [] || x.at > prior[|prior| - 1].at)
    ensures var kept := if prior != [] && x.util < prior[|prior| - 1].util then [] else prior;
      var r := Trim(kept + [x], x.at - WINDOW);
      Wellformed(r) && r != [] && r[|r| - 1] == x && (prior == [] ==> r == [x])
  {
    var kept := if prior != [] && x.util < prior[|prior| - 1].util then [] else prior;
    var grown := kept + [x];
    AppendRises(kept, x);
    assert grown[|grown| - 1] == x;
    TrimmedWellformed(grown);
  }

  /**
   * Representation invariant of every history: times increase strictly,
   * utilization never falls, and every sample is within the window of the last.
   * The newest accepted measurement is always the last sample.
   */
  lemma ObservedWellformed(t: Track, slot: int, at: real, util: real)
    requires Wellformed(t.samples)
    ensures var r := Observed(t, slot, at, util);
      && r.slot == slot && r.samples != [] && Wellformed(r.samples)
      && r.samples[|r.samples| - 1].at >= at
      && (slot != t.slot || t.samples == [] || at > t.samples[|t.samples| - 1].at ==>
            r.samples[|r.samples| - 1] == Sample(at, util))
      && (slot != t.slot ==> r.samples == [Sample(at, util)])
      && (slot == t.slot && t.samples != [] && at <= t.samples[|t.samples| - 1].at ==> r == t)
  {
    var prior := if slot != t.slot then [] else t.samples;
    if prior == [] || at > prior[|prior| - 1].at {
      AcceptedWellformed(prior, Sample(at, util));
    }
  }

  datatype Observation = Observation(slot: int, at: real, util: real)

  function History(obs: seq<Observation>): Track
    decreases |obs|
  {
    if obs == [] then Track(0, [])
    else
      var o := obs[|obs| - 1];
      Observed(History(obs[..|obs| - 1]), o.slot, o.at, o.util)
  }

  lemma {:induction false} HistoryWellformed(obs: seq<Observation>)
    ensures Wellformed(History(obs).samples)
    decreases |obs|
  {
    if obs != [] {
      HistoryWellformed(obs[..|obs| - 1]);
      var o := obs[|obs| - 1];
      ObservedWellformed(History(obs[..|obs| - 1]), o.slot, o.at, o.util);
    }
  }

  function Slope(a: Sample, z: Sample): Option<real> {
    if z.at - a.at < MIN_SPAN then None else Some((z.util - a.util) / (z.at - a.at))
  }

  /** The steeper of the window-wide slope and the latest pair's. */
  function Rate(s: seq<Sample>): Option<real> {
    var n := |s|;
    if n < 2 then None
    else
      var wide := Slope(s[0], s[n - 1]);
      var last := Slope(s[n - 2], s[n - 1]);
      if last.Some? && (wide.None? || last.value > wide.value) then last else wide
  }

  lemma SlopeNonNegative(a: Sample, z: Sample)
    requires a.util <= z.util && Slope(a, z).Some?
    ensures Slope(a, z).value >= 0.0
  {
    assert Slope(a, z).value * (z.at - a.at) == z.util - a.util;
  }

  /**
   * Over every history the rate exists exactly when there are two samples whose
   * whole window spans a minute, is never negative, and is the greater of the
   * candidate slopes that exist.
   */
  lemma RateMeaning(obs: seq<Observation>)
    ensures var s := History(obs).samples;
      && (Rate(s).Some? <==> |s| >= 2 && s[|s| - 1].at - s[0].at >= 60.0)
      && (Rate(s).Some? ==>
            && Rate(s).value >= 0.0
            && Rate(s).value >= Slope(s[0], s[|s| - 1]).value
            && (Slope(s[|s| - 2], s[|s| - 1]).Some? ==> Rate(s).value >= Slope(s[|s| - 2], s[|s| - 1]).value)
            && (Rate(s) == Slope(s[0], s[|s| - 1]) || Rate(s) == Slope(s[|s| - 2], s[|s| - 1])))
  {
    HistoryWellformed(obs);
    var s := History(obs).samples;
    if |s| >= 2 {
      assert s[0].at <= s[|s| - 2].at;
      if Slope(s[0], s[|s| - 1]).Some? { SlopeNonNegative(s[0], s[|s| - 1]); }
      if Slope(s[|s| - 2], s[|s| - 1]).Some? { SlopeNonNegative(s[|s| - 2], s[|s| - 1]); }
    }
  }

  class BurnTracker {
    var slot: int
    var samples: seq<Sample>

    constructor ()
      ensures slot == 0 && samples == []
    {
      slot, samples := 0, [];
    }

    ghost function Contents(): Track
      reads this
    {
      Track(slot, samples)
    }

    method Observe(s: int, at: real, util: real)
      modifies this
      ensures Contents() == Observed(old(Contents()), s, at, util)
    {
      if s != slot {
        slot, samples := s, [];
      }
      var n := |samples|;
      if n > 0 {
        var last := samples[n - 1];
        if at <= last.at {
          return;
        }
        if util < last.util {
          samples := [];
        }
      }
      samples := samples + [Sample(at, util)];
      var cut := at - WINDOW;
      ghost var grown := samples;
      assert Observed(old(Contents()), s, at, util) == Track(s, Trim(grown, cut));
      var i := 0;
      while i < |samples| - 1 && samples[i].at < cut
        invariant 0 <= i < |samples|
        invariant samples == grown && slot == s
        invariant Trim(grown, cut) == Trim(grown[i..], cut)
      {
        assert samples[i..][1..] == samples[i + 1..];
        i := i + 1;
      }
      samples := samples[i..];
    }
  }
}
