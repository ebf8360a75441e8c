/** What upstream reported and what the store makes of it: every window series is
    the reported values of that window, newest first to be kept. */
module SampleReports {
  import opened Common
  import opened SampleStore
  import opened SampleReplay

  /** The value a snapshot carries for a window, if it does. */
  function Reported(snap: Snapshot, name: string): Option<Sample> {
    if name == "included" && snap.included.Some? && snap.included.value.cap > 0.0 then
      Some(Sample(snap.at, snap.included.value.remaining, snap.included.value.cap, snap.included.value.resetsAt))
    else if name == "session" && snap.session.Some? then
      Some(Sample(snap.at, snap.session.value.remaining, 0.0, snap.session.value.resetsAt))
    else if name == "weekly" && snap.weekly.Some? then
      Some(Sample(snap.at, snap.weekly.value.remaining, 0.0, snap.weekly.value.resetsAt))
    else if name == "purchased" && snap.purchasedUsd >= 0.0 then
      Some(Sample(snap.at, snap.purchasedUsd, 0.0, 0))
    else None
  }

  /** The sample a list of observed windows holds under a name. */
  function Find(ws: seq<(string, Sample)>, name: string): Option<Sample>
    decreases |ws|
  {
    if ws == [] then None else if ws[0].0 == name then Some(ws[0].1) else Find(ws[1..], name)
  }

  lemma {:induction false} FindConcat(a: seq<(string, Sample)>, b: seq<(string, Sample)>, name: string)
    ensures Find(a + b, name) == if Find(a, name).Some? then Find(a, name) else Find(b, name)
    decreases |a|
  {
    if a == [] {
      assert a + b == b;
    } else {
      FindConcat(a[1..], b, name);
      assert (a + b)[1..] == a[1..] + b;
    }
  }

  lemma {:induction false} ObservedIsReported(snap: Snapshot, name: string)
    ensures Find(Observed(snap), name) == Reported(snap, name)
  {
    var a := if snap.included.Some? && snap.included.value.cap > 0.0
             then [(INCLUDED, Sample(snap.at, snap.included.value.remaining, snap.included.value.cap, snap.included.value.resetsAt))] else [];
    var b, c := Opt(SESSION, snap.session, snap.at), Opt(WEEKLY, snap.weekly, snap.at);
    var d := if snap.purchasedUsd >= 0.0 then [(PURCHASED, Sample(snap.at, snap.purchasedUsd, 0.0, 0))] else [];
    FindConcat(a + b + c, d, name);
    FindConcat(a + b, c, name);
    FindConcat(a, b, name);
    assert "included"[0] == 'i' && "session"[0] == 's' && "weekly"[0] == 'w' && "purchased"[0] == 'p';
  }

  lemma {:induction false} AddWindowsSeries(s: State, key: string, ws: seq<(string, Sample)>, r: Retention, at: nat, id: WindowId)
    requires at > 0 && LastTs(Series(s, id)) < at
    requires forall i :: 0 <= i < |ws| ==> ws[i].1.ts == at
    requires forall i, j :: 0 <= i < j < |ws| ==> ws[i].0 != ws[j].0
    ensures Series(AddWindows(s, key, ws, r), id)
            == if id.key == key && Find(ws, id.name).Some? then Kept(Series(s, id) + [Find(ws, id.name).value], at, r) else Series(s, id)
    decreases |ws|
  {
    hide Kept;
    if ws == [] {
    } else {
      var first := WindowId(key, ws[0].0);
      var t := AddWindow(s, first, ws[0].1, r);
      if first == id {
        OthersStay(t, key, ws[1..], r, id);
      } else {
        AddWindowsSeries(t, key, ws[1..], r, at, id);
      }
    }
  }

  lemma {:induction false} OthersStay(s: State, key: string, ws: seq<(string, Sample)>, r: Retention, id: WindowId)
    requires id.key == key ==> forall i :: 0 <= i < |ws| ==> ws[i].0 != id.name
    ensures Series(AddWindows(s, key, ws, r), id) == Series(s, id)
    decreases |ws|
  {
    hide Kept;
    if ws == [] {
    } else {
      OthersStay(AddWindow(s, WindowId(key, ws[0].0), ws[0].1, r), key, ws[1..], r, id);
    }
  }

  lemma {:induction false} BucketsKeepWindows(s: State, key: string, buckets: seq<Bucket>, nowHour: int, r: Retention)
    ensures MergeBuckets(s, key, buckets, nowHour, r).windows == s.windows
    decreases |buckets|
  {
    hide MergeHour;
    if buckets == [] {
    } else {
      var b := buckets[0];
      if b.hour.None? {
        BucketsKeepWindows(s, key, buckets[1..], nowHour, r);
      } else {
        var value := Hour(b.usd, !b.partial);
        var m := MergeHour(s, key, b.hour.value, value, nowHour, r);
        MergeHourFrame(s, key, b.hour.value, value, nowHour, r);
        BucketsKeepWindows(if m.1 then m.0.(dirty := m.0.dirty + [HourRecord(key, b.hour.value, value)]) else m.0,
                           key, buckets[1..], nowHour, r);
      }
    }
  }

  /** An observation newer than its key's last one puts the value it carries for a
      window at the end of that window's series, which retention then trims; a
      window it does not carry, and every window of another key, stays as it is. */
  lemma {:induction false} ObservationIsStored(s: State, snap: Snapshot, nowHour: int, r: Retention, id: WindowId)
    requires snap.at > LastOf(s, snap.key) && (id.key == snap.key ==> LastTs(Series(s, id)) < snap.at)
    ensures var before, after := Series(s, id), Series(Apply(s, snap, nowHour, r), id);
            if id.key == snap.key && Reported(snap, id.name).Some? then
              && after == Kept(before + [Reported(snap, id.name).value], snap.at, r)
              && after != [] && after[|after| - 1] == Reported(snap, id.name).value
            else after == before
  {
    hide Kept, AddWindows, MergeBuckets, Observed, Reported;
    var s1 := Relabel(s.(lastOK := s.lastOK[snap.key := snap.at]), snap.key, snap.label_);
    ObservedNames(snap);
    if id.key == snap.key {
      AddWindowsSeries(s1, snap.key, Observed(snap), r, snap.at, id);
    } else {
      OthersStay(s1, snap.key, Observed(snap), r, id);
    }
    ObservedIsReported(snap, id.name);
    BucketsKeepWindows(AddWindows(s1, snap.key, Observed(snap), r), snap.key, snap.hours, nowHour, r);
    if Reported(snap, id.name).Some? {
      ReportedAt(snap, id.name);
      KeptLast(Series(s, id) + [Reported(snap, id.name).value], Reported(snap, id.name).value, r);
    }
  }

  lemma {:induction false} ReportedAt(snap: Snapshot, name: string)
    ensures Reported(snap, name).Some? ==> Reported(snap, name).value.ts == snap.at
  {
  }

  // ---- runs ----

  /** Observation `n` has a time and is newer than all before it of its key. */
  ghost predicate IsNewer(obs: seq<Observation>, n: nat)
    requires n < |obs|
  {
    obs[n].snap.at > 0 && forall m: nat :: m < n && obs[m].snap.key == obs[n].snap.key ==> obs[m].snap.at < obs[n].snap.at
  }

  /** What upstream reported for one window, in the observations that were newer. */
  ghost function ReportedFor(obs: seq<Observation>, id: WindowId): seq<Sample> {
    if obs == [] then []
    else
      var n := |obs| - 1;
      var snap := obs[n].snap;
      ReportedFor(obs[..n], id)
      + (if snap.key == id.key && IsNewer(obs, n) && Reported(snap, id.name).Some? then [Reported(snap, id.name).value] else [])
  }

  /** The last accepted time of a key is the newest time seen for it. */
  lemma {:induction false} LastIsNewest(obs: seq<Observation>, r: Retention, key: string)
    ensures forall n: nat :: n < |obs| && obs[n].snap.key == key ==> obs[n].snap.at <= LastOf(Live(obs, r), key)
    ensures LastOf(Live(obs, r), key) == 0 || exists n: nat :: n < |obs| && obs[n].snap.key == key && obs[n].snap.at == LastOf(Live(obs, r), key)
  {
    hide AddWindows, MergeBuckets;
    if obs == [] {
    } else {
      var before, last := obs[..|obs| - 1], obs[|obs| - 1];
      LastIsNewest(before, r, key);
      var s := Live(before, r);
      ApplyTimes(s, last.snap, last.nowHour, r);
      hide Apply, Live;
      if LastOf(Live(obs, r), key) == last.snap.at && last.snap.key == key {
        assert obs[|obs| - 1].snap.at == LastOf(Live(obs, r), key);
      } else if LastOf(s, key) != 0 {
        var n: nat :| n < |before| && before[n].snap.key == key && before[n].snap.at == LastOf(s, key);
        assert obs[n].snap.at == LastOf(s, key);
      }
    }
  }

  lemma {:induction false} ApplyTimes(s: State, snap: Snapshot, nowHour: int, r: Retention)
    ensures var t := Apply(s, snap, nowHour, r);
            forall key :: LastOf(t, key) == if key == snap.key && snap.at > LastOf(s, key) then snap.at else LastOf(s, key)
  {
    hide AddWindow, MergeHour, Observed;
    if snap.at > LastOf(s, snap.key) {
      var s1 := Relabel(s.(lastOK := s.lastOK[snap.key := snap.at]), snap.key, snap.label_);
      WindowsKeepTimes(s1, snap.key, Observed(snap), r);
      BucketsKeepTimes(AddWindows(s1, snap.key, Observed(snap), r), snap.key, snap.hours, nowHour, r);
    }
  }

  lemma {:induction false} WindowsKeepTimes(s: State, key: string, ws: seq<(string, Sample)>, r: Retention)
    ensures AddWindows(s, key, ws, r).lastOK == s.lastOK && AddWindows(s, key, ws, r).labels == s.labels
    decreases |ws|
  {
    hide Kept;
    if ws == [] {
    } else {
      WindowsKeepTimes(AddWindow(s, WindowId(key, ws[0].0), ws[0].1, r), key, ws[1..], r);
    }
  }

  lemma {:induction false} BucketsKeepTimes(s: State, key: string, buckets: seq<Bucket>, nowHour: int, r: Retention)
    ensures MergeBuckets(s, key, buckets, nowHour, r).lastOK == s.lastOK && MergeBuckets(s, key, buckets, nowHour, r).labels == s.labels
    decreases |buckets|
  {
    hide MergeHour;
    if buckets == [] {
    } else {
      var b := buckets[0];
      if b.hour.None? {
        BucketsKeepTimes(s, key, buckets[1..], nowHour, r);
      } else {
        var value := Hour(b.usd, !b.partial);
        var m := MergeHour(s, key, b.hour.value, value, nowHour, r);
        MergeHourFrame(s, key, b.hour.value, value, nowHour, r);
        BucketsKeepTimes(if m.1 then m.0.(dirty := m.0.dirty + [HourRecord(key, b.hour.value, value)]) else m.0,
                         key, buckets[1..], nowHour, r);
      }
    }
  }

  /** Every live series is what upstream reported for that window, as far as it is
      within the retention of its newest value. */
  lemma {:induction false} SeriesAreReports(obs: seq<Observation>, r: Retention, id: WindowId)
    ensures Series(Live(obs, r), id) == Kept(ReportedFor(obs, id), LastTs(ReportedFor(obs, id)), r)
    ensures Rising(ReportedFor(obs, id)) && LastTs(ReportedFor(obs, id)) <= LastOf(Live(obs, r), id.key)
  {
    hide Apply, Kept, Reported, Rising;
    if obs == [] {
      NothingReported(r, id);
    } else {
      var n := |obs| - 1;
      var before, o := obs[..n], obs[n];
      SeriesAreReports(before, r, id);
      LastIsNewest(before, r, o.snap.key);
      var s, xs := Live(before, r), ReportedFor(before, id);
      ApplyTimes(s, o.snap, o.nowHour, r);
      NewerIsLater(obs, r);
      KeptTimes(xs, r);
      assert xs + [] == xs;
      if IsNewer(obs, n) {
        ObservationIsStored(s, o.snap, o.nowHour, r, id);
        if id.key == o.snap.key && Reported(o.snap, id.name).Some? {
          ReportedAt(o.snap, id.name);
          StoredTwice(xs, Reported(o.snap, id.name).value, r);
        }
      } else {
        StaleIsRefused(s, o.snap, o.nowHour, r);
      }
    }
  }

  lemma {:induction false} NothingReported(r: Retention, id: WindowId)
    ensures Series(Live([], r), id) == Kept(ReportedFor([], id), LastTs(ReportedFor([], id)), r) && Rising(ReportedFor([], id))
  {
  }

  lemma {:induction false} NewerIsLater(obs: seq<Observation>, r: Retention)
    requires obs != []
    ensures var n := |obs| - 1; IsNewer(obs, n) <==> obs[n].snap.at > LastOf(Live(obs[..n], r), obs[n].snap.key)
  {
    hide Apply, Live;
    var n := |obs| - 1;
    LastIsNewest(obs[..n], r, obs[n].snap.key);
    assert forall m: nat :: m < n ==> obs[..n][m] == obs[m];
  }

  lemma {:induction false} StaleIsRefused(s: State, snap: Snapshot, nowHour: int, r: Retention)
    requires snap.at <= LastOf(s, snap.key)
    ensures Apply(s, snap, nowHour, r) == s
  {
  }

  /** Trimming leaves the newest value in place. */
  lemma {:induction false} KeptTimes(xs: seq<Sample>, r: Retention)
    ensures LastTs(Kept(xs, LastTs(xs), r)) == LastTs(xs)
  {
    if xs != [] {
      KeptLast(xs, xs[|xs| - 1], r);
    }
    hide Kept;
  }

  lemma {:induction false} StoredTwice(xs: seq<Sample>, w: Sample, r: Retention)
    requires Rising(xs) && w.ts > LastTs(xs)
    ensures Kept(Kept(xs, LastTs(xs), r) + [w], w.ts, r) == Kept(xs + [w], w.ts, r) && Rising(xs + [w]) && LastTs(xs + [w]) == w.ts
  {
    KeptAppend(Kept(xs, LastTs(xs), r), w, w.ts, r);
    KeptAppend(xs, w, w.ts, r);
    KeptTwice(xs, LastTs(xs), w.ts, r);
    RisingGrows(xs, w);
    hide Kept;
  }

  /** Of values with rising times retention keeps the newest: exactly those no
      older than the history before the instant. */
  lemma {:induction false} KeptIsNewest(xs: seq<Sample>, newest: nat, r: Retention) returns (n: nat)
    requires Rising(xs)
    ensures n <= |xs| && Kept(xs, newest, r) == xs[n..]
    ensures forall i :: 0 <= i < |xs| ==> (i >= n <==> xs[i].ts + r.history >= newest)
  {
    if xs == [] {
      n := 0;
    } else {
      var shorter, last := xs[..|xs| - 1], xs[|xs| - 1];
      n := KeptIsNewest(shorter, newest, r);
      assert Kept(xs, newest, r) == shorter[n..] + (if last.ts + r.history >= newest then [last] else []);
      hide Kept;
      assert forall i :: 0 <= i < |shorter| ==> xs[i] == shorter[i] && xs[i].ts < last.ts;
      if last.ts + r.history >= newest {
        assert shorter[n..] + [last] == xs[n..];
      } else {
        n := |xs|;
      }
    }
  }

  // ---- labels ----

  /** The last label that is not blank, in the observations that were newer. */
  ghost function LabelFor(obs: seq<Observation>, key: string): string {
    if obs == [] then ""
    else
      var n := |obs| - 1;
      var snap := obs[n].snap;
      if snap.key == key && IsNewer(obs, n) && snap.label_ != "" then snap.label_ else LabelFor(obs[..n], key)
  }

  /** A key is known by the label upstream last gave it, and has none before. */
  lemma {:induction false} LabelIsReported(obs: seq<Observation>, r: Retention, key: string)
    ensures LabelOf(Live(obs, r), key) == LabelFor(obs, key)
    ensures key in Live(obs, r).labels <==> LabelFor(obs, key) != ""
  {
    hide Apply;
    if obs == [] {
    } else {
      var n := |obs| - 1;
      LabelIsReported(obs[..n], r, key);
      NewerIsLater(obs, r);
      ApplyLabels(Live(obs[..n], r), obs[n].snap, obs[n].nowHour, r);
    }
  }

  lemma {:induction false} ApplyLabels(s: State, snap: Snapshot, nowHour: int, r: Retention)
    ensures var t := Apply(s, snap, nowHour, r);
            t.labels == if snap.at > LastOf(s, snap.key) && snap.label_ != "" && LabelOf(s, snap.key) != snap.label_
                        then s.labels[snap.key := snap.label_] else s.labels
  {
    hide AddWindow, MergeHour, Observed;
    if snap.at > LastOf(s, snap.key) {
      var s1 := Relabel(s.(lastOK := s.lastOK[snap.key := snap.at]), snap.key, snap.label_);
      WindowsKeepTimes(s1, snap.key, Observed(snap), r);
      BucketsKeepTimes(AddWindows(s1, snap.key, Observed(snap), r), snap.key, snap.hours, nowHour, r);
    }
  }
}
