/** Hour buckets and labels across a restart: the live store keeps, for every
    retained hour, the best value upstream reported; replaying the log recovers
    it; and ingesting a suffix of the log twice changes nothing at all. */
module SampleRecovery {
  import opened Common
  import opened SampleStore
  import opened SampleReplay

  // ---- what upstream reported for an hour ----

  function ValuesFor(buckets: seq<Bucket>, hour: int): seq<Hour> {
    if buckets == [] then []
    else
      (if buckets[0].hour == Some(hour) then [Hour(buckets[0].usd, !buckets[0].partial)] else []) + ValuesFor(buckets[1..], hour)
  }

  predicate Accepted(s: State, snap: Snapshot) {
    snap.at != 0 && !(snap.key in s.lastOK && snap.at <= s.lastOK[snap.key])
  }

  /** Every value of one hour in the accepted observations, in order. */
  function Reports(obs: seq<Observation>, key: string, hour: int, r: Retention): seq<Hour> {
    if obs == [] then []
    else
      var rest, o := obs[..|obs| - 1], obs[|obs| - 1];
      Reports(rest, key, hour, r)
      + (if Accepted(Live(rest, r), o.snap) && o.snap.key == key then ValuesFor(o.snap.hours, hour) else [])
  }

  /** The hour outlives every trim made so far. */
  ghost predicate Outlives(obs: seq<Observation>, hour: int, r: Retention) {
    forall i :: 0 <= i < |obs| ==> hour >= obs[i].nowHour - r.hours - 1
  }

  /** The log carries exactly the values that changed the bucket. */
  ghost predicate HourLogged(s: State, key: string, hour: int) {
    Held(s, key, hour) == Merged(HoursIn(s.dirty, key, hour))
  }

  lemma {:induction false} MergedConcat(a: seq<Hour>, b: seq<Hour>, c: seq<Hour>)
    requires Merged(a) == Merged(b)
    ensures Merged(a + c) == Merged(b + c)
    decreases |c|
  {
    if c == [] {
      assert a + c == a && b + c == b;
    } else {
      var rest := c[..|c| - 1];
      MergedConcat(a, b, rest);
      assert a + c == (a + rest) + [c[|c| - 1]] && b + c == (b + rest) + [c[|c| - 1]];
      MergedAppend(a + rest, c[|c| - 1]);
      MergedAppend(b + rest, c[|c| - 1]);
    }
  }

  /** One bucket list moves a retained hour of its key through each reported value. */
  lemma {:induction false} BucketsMerge(s: State, key: string, buckets: seq<Bucket>, nowHour: int, r: Retention, k: string, h: int,
                                        before: seq<Hour>)
    requires h >= nowHour - r.hours - 1 && HourLogged(s, k, h) && Held(s, k, h) == Merged(before)
    ensures var t := MergeBuckets(s, key, buckets, nowHour, r);
            && HourLogged(t, k, h)
            && Held(t, k, h) == Merged(before + (if k == key then ValuesFor(buckets, h) else []))
    decreases |buckets|
  {
    hide MergeHour, Held, Merged, HoursIn;
    if buckets == [] {
      assert before + [] == before;
    } else {
      var b := buckets[0];
      if b.hour.None? {
        BucketsMerge(s, key, buckets[1..], nowHour, r, k, h, before);
        assert [] + ValuesFor(buckets[1..], h) == ValuesFor(buckets[1..], h);
      } else {
        var value := Hour(b.usd, !b.partial);
        var mine := if k == key && b.hour.value == h then [value] else [];
        var t := BucketStep(s, key, b.hour.value, value, nowHour, r);
        BucketStepMerges(s, key, b.hour.value, value, nowHour, r, k, h, before);
        BucketsMerge(t, key, buckets[1..], nowHour, r, k, h, before + mine);
        assert before + mine + ValuesFor(buckets[1..], h) == before + (mine + ValuesFor(buckets[1..], h));
        assert k != key ==> before + mine + [] == before + [];
      }
    }
  }

  function BucketStep(s: State, key: string, hour: int, value: Hour, nowHour: int, r: Retention): State {
    var m := MergeHour(s, key, hour, value, nowHour, r);
    if m.1 then m.0.(dirty := m.0.dirty + [HourRecord(key, hour, value)]) else m.0
  }

  lemma {:induction false} BucketStepMerges(s: State, key: string, hour: int, value: Hour, nowHour: int, r: Retention, k: string, h: int, before: seq<Hour>)
    requires h >= nowHour - r.hours - 1 && HourLogged(s, k, h) && Held(s, k, h) == Merged(before)
    ensures var t := BucketStep(s, key, hour, value, nowHour, r);
            HourLogged(t, k, h) && Held(t, k, h) == Merged(before + (if k == key && h == hour then [value] else []))
  {
    hide MergeHour, Merged, HoursIn, Held;
    var m := MergeHour(s, key, hour, value, nowHour, r);
    MergeHourFrame(s, key, hour, value, nowHour, r);
    MergeHourEffect(s, key, hour, value, nowHour, r, k, h);
    var t := BucketStep(s, key, hour, value, nowHour, r);
    SameHours(m.0, t, k, h);
    HoursAppend(s.dirty, HourRecord(key, hour, value), k, h);
    MergedAppend(HoursIn(s.dirty, k, h), value);
    MergedAppend(before, value);
    assert HoursIn(s.dirty, k, h) + [] == HoursIn(s.dirty, k, h);
    assert before + [] == before;
  }

  /** The part of an observation before its hour buckets logs no hour. */
  lemma {:induction false} WindowsLogNoHours(s: State, key: string, ws: seq<(string, Sample)>, r: Retention, k: string, h: int)
    requires HourLogged(s, k, h)
    ensures var t := AddWindows(s, key, ws, r);
            HourLogged(t, k, h) && t.hours == s.hours && t.labels == s.labels
    decreases |ws|
  {
    hide Merged, HoursIn, Kept;
    if ws == [] {
    } else {
      var t := AddWindow(s, WindowId(key, ws[0].0), ws[0].1, r);
      HoursAppend(s.dirty, SampleRecord(WindowId(key, ws[0].0), ws[0].1), k, h);
      assert HoursIn(s.dirty, k, h) + [] == HoursIn(s.dirty, k, h);
      WindowsLogNoHours(t, key, ws[1..], r, k, h);
    }
  }

  lemma {:induction false} ApplyHour(s: State, snap: Snapshot, nowHour: int, r: Retention, k: string, h: int, before: seq<Hour>)
    requires h >= nowHour - r.hours - 1 && HourLogged(s, k, h) && Held(s, k, h) == Merged(before)
    ensures var t := Apply(s, snap, nowHour, r);
            && HourLogged(t, k, h)
            && Held(t, k, h) == Merged(before + (if Accepted(s, snap) && snap.key == k then ValuesFor(snap.hours, h) else []))
  {
    hide Merged, HoursIn, AddWindows, MergeBuckets, ValuesFor, Observed, Held;
    assert before + [] == before;
    if Accepted(s, snap) {
      var s0 := s.(lastOK := s.lastOK[snap.key := snap.at]);
      var s1 := Relabel(s0, snap.key, snap.label_);
      HoursAppend(s.dirty, LabelRecord(snap.key, snap.label_), k, h);
      assert HoursIn(s.dirty, k, h) + [] == HoursIn(s.dirty, k, h);
      SameHours(s, s1, k, h);
      var s2 := AddWindows(s1, snap.key, Observed(snap), r);
      WindowsLogNoHours(s1, snap.key, Observed(snap), r, k, h);
      SameHours(s1, s2, k, h);
      BucketsMerge(s2, snap.key, snap.hours, nowHour, r, k, h, before);
    }
  }

  /** In every run, a retained hour holds what its reports merge to: the last full
      value, or else the first partial one; and the log alone determines it. */
  lemma {:induction false} LiveHour(obs: seq<Observation>, r: Retention, key: string, hour: int)
    requires Outlives(obs, hour, r)
    ensures Held(Live(obs, r), key, hour) == Merged(Reports(obs, key, hour, r))
    ensures HourLogged(Live(obs, r), key, hour)
  {
    hide Apply, Held, Merged, HourLogged, ValuesFor, Accepted;
    if obs == [] {
      assert HourLogged(EMPTY, key, hour) && Held(EMPTY, key, hour) == Merged([]) by {
        NoHours(key, hour);
      }
    } else {
      var rest, o := obs[..|obs| - 1], obs[|obs| - 1];
      LiveHour(rest, r, key, hour);
      assert hour >= o.nowHour - r.hours - 1;
      ApplyHour(Live(rest, r), o.snap, o.nowHour, r, key, hour, Reports(rest, key, hour, r));
    }
  }

  lemma {:induction false} NoHours(key: string, hour: int)
    ensures HourLogged(EMPTY, key, hour) && Held(EMPTY, key, hour) == Merged([])
  {
  }

  lemma {:induction false} LiveHourIsBest(obs: seq<Observation>, r: Retention, key: string, hour: int)
    requires Outlives(obs, hour, r)
    ensures var reports := Reports(obs, key, hour, r);
            Held(Live(obs, r), key, hour)
            == if LastFull(reports).Some? then LastFull(reports) else if reports != [] then Some(reports[0]) else None
  {
    hide *;
    LiveHour(obs, r, key, hour);
    MergedIsBest(Reports(obs, key, hour, r));
  }

  // ---- the hour maps after a restart ----

  ghost predicate SameRetained(s: State, t: State, nowHour: int, r: Retention) {
    forall k, h :: h >= nowHour - r.hours - 1 ==> Held(s, k, h) == Held(t, k, h)
  }

  lemma {:induction false} TrimmedBuckets(s: State, k: string, nowHour: int, r: Retention)
    ensures var t := TrimRetention(s, nowHour, r);
            && (k in t.hours <==> KeptHours(Buckets(s, k), nowHour, r) != map[])
            && (k in t.hours ==> t.hours[k] == KeptHours(Buckets(s, k), nowHour, r))
  {
  }

  lemma {:induction false} SameKept(s: State, t: State, k: string, nowHour: int, r: Retention)
    requires SameRetained(s, t, nowHour, r)
    ensures KeptHours(Buckets(s, k), nowHour, r) == KeptHours(Buckets(t, k), nowHour, r)
  {
    var a, b := Buckets(s, k), Buckets(t, k);
    hide Buckets;
    forall h | h >= nowHour - r.hours - 1
      ensures (h in a <==> h in b) && (h in a ==> a[h] == b[h])
    {
      assert Held(s, k, h) == Held(t, k, h);
    }
  }

  lemma {:induction false} SameTrimmedHours(s: State, t: State, nowHour: int, r: Retention)
    requires SameRetained(s, t, nowHour, r)
    ensures TrimRetention(s, nowHour, r).hours == TrimRetention(t, nowHour, r).hours
  {
    hide TrimRetention, KeptHours, SameRetained, Buckets;
    var a, b := TrimRetention(s, nowHour, r).hours, TrimRetention(t, nowHour, r).hours;
    forall k
      ensures (k in a <==> k in b) && (k in a ==> a[k] == b[k])
    {
      TrimmedBuckets(s, k, nowHour, r);
      TrimmedBuckets(t, k, nowHour, r);
      SameKept(s, t, k, nowHour, r);
    }
  }

  /** Replaying the log at any later hour recovers the hour buckets the live store
      would itself retain then. */
  lemma {:induction false} ReplayRebuildsHours(obs: seq<Observation>, nowHour: int, r: Retention)
    requires forall i :: 0 <= i < |obs| ==> obs[i].nowHour <= nowHour
    ensures var live := Live(obs, r);
            TrimRetention(Replay(EMPTY, live.dirty, nowHour, r), nowHour, r).hours == TrimRetention(live, nowHour, r).hours
  {
    hide Live, Replay, TrimRetention, Held, Merged, HoursIn;
    var live := Live(obs, r);
    var s := Replay(EMPTY, live.dirty, nowHour, r);
    forall k, h | h >= nowHour - r.hours - 1
      ensures Held(s, k, h) == Held(live, k, h)
    {
      assert Outlives(obs, h, r);
      LiveHour(obs, r, k, h);
      ReplayedHour(live.dirty, nowHour, r, k, h);
    }
    SameTrimmedHours(s, live, nowHour, r);
  }

  // ---- labels ----

  /** The last label a log gives a key. */
  function LabelIn(log: seq<Record>, key: string): Option<string> {
    if log == [] then None
    else
      var rec := log[|log| - 1];
      if rec.LabelRecord? && rec.key == key then Some(rec.name) else LabelIn(log[..|log| - 1], key)
  }

  /** Some sample of the key is in the log. */
  predicate Sampled(log: seq<Record>, key: string) {
    log != [] && ((log[|log| - 1].SampleRecord? && log[|log| - 1].id.key == key) || Sampled(log[..|log| - 1], key))
  }

  function LabelHeld(s: State, key: string): Option<string> { if key in s.labels then Some(s.labels[key]) else None }

  /** The last label wins over the placeholder a sample leaves. */
  lemma {:induction false} ReplayedLabel(log: seq<Record>, nowHour: int, r: Retention, key: string)
    ensures LabelHeld(Replay(EMPTY, log, nowHour, r), key)
            == if LabelIn(log, key).Some? then LabelIn(log, key) else if Sampled(log, key) then Some("Ollama credential") else None
  {
    hide MergeHour;
    if log == [] {
    } else {
      var rest, rec := log[..|log| - 1], log[|log| - 1];
      ReplayedLabel(rest, nowHour, r, key);
      if rec.HourRecord? {
        MergeHourFrame(Replay(EMPTY, rest, nowHour, r), rec.key, rec.hour, rec.value, nowHour, r);
      }
    }
  }

  // ---- ingesting a suffix twice ----

  lemma {:induction false} LabelConcat(a: seq<Record>, b: seq<Record>, key: string)
    ensures LabelIn(a + b, key) == if LabelIn(b, key).Some? then LabelIn(b, key) else LabelIn(a, key)
    ensures Sampled(a + b, key) <==> Sampled(a, key) || Sampled(b, key)
    decreases |b|
  {
    if b == [] {
      assert a + b == a;
    } else {
      LabelConcat(a, b[..|b| - 1], key);
      assert (a + b)[..|a + b| - 1] == a + b[..|b| - 1];
    }
  }

  lemma {:induction false} HoursConcat(a: seq<Record>, b: seq<Record>, key: string, hour: int)
    ensures HoursIn(a + b, key, hour) == HoursIn(a, key, hour) + HoursIn(b, key, hour)
    decreases |b|
  {
    if b == [] {
      assert a + b == a;
    } else {
      HoursConcat(a, b[..|b| - 1], key, hour);
      assert (a + b)[..|a + b| - 1] == a + b[..|b| - 1];
    }
  }

  lemma {:induction false} LastFullConcat(a: seq<Hour>, b: seq<Hour>)
    ensures LastFull(a + b) == if LastFull(b).Some? then LastFull(b) else LastFull(a)
    decreases |b|
  {
    if b == [] {
      assert a + b == a;
    } else {
      LastFullConcat(a, b[..|b| - 1]);
      assert (a + b)[..|a + b| - 1] == a + b[..|b| - 1];
    }
  }

  lemma {:induction false} MergedTwice(a: seq<Hour>, b: seq<Hour>)
    ensures Merged(a + b + b) == Merged(a + b)
  {
    hide Merged, LastFull;
    LastFullConcat(a, b);
    LastFullConcat(a + b, b);
    MergedIsBest(a + b);
    MergedIsBest(a + b + b);
  }

  /** The store already has everything a sample record would add. */
  ghost predicate Seen(s: State, rec: Record) {
    rec.SampleRecord? ==>
      && rec.id in s.windows && Stamped(s.windows[rec.id], rec.sample.ts)
      && (rec.sample.ts == 0 || (rec.id.key in s.lastOK && rec.sample.ts <= s.lastOK[rec.id.key])) && rec.id.key in s.labels
  }

  lemma {:induction false} IngestSees(s: State, rec: Record, nowHour: int, r: Retention)
    ensures Seen(Ingest(s, rec, nowHour, r), rec)
  {
    hide MergeHour;
    if rec.SampleRecord? {
      var series := Series(s, rec.id);
      var grown := series + [rec.sample];
      assert grown[|series|].ts == rec.sample.ts;
    }
  }

  lemma {:induction false} StampedGrows(series: seq<Sample>, w: Sample, ts: nat)
    requires Stamped(series, ts)
    ensures Stamped(series + [w], ts)
  {
    var i :| 0 <= i < |series| && series[i].ts == ts;
    assert (series + [w])[i].ts == ts;
  }

  lemma {:induction false} SeenStays(s: State, rec: Record, next: Record, nowHour: int, r: Retention)
    requires Seen(s, rec)
    ensures Seen(Ingest(s, next, nowHour, r), rec)
  {
    hide MergeHour, Stamped;
    if next.HourRecord? {
      MergeHourFrame(s, next.key, next.hour, next.value, nowHour, r);
    } else if next.SampleRecord? && rec.SampleRecord? {
      StampedGrowsIf(s.windows[rec.id], next.sample, rec.sample.ts);
    }
  }

  lemma {:induction false} StampedGrowsIf(series: seq<Sample>, w: Sample, ts: nat)
    ensures Stamped(series, ts) ==> Stamped(series + [w], ts)
  {
    if Stamped(series, ts) {
      StampedGrows(series, w, ts);
    }
  }

  lemma {:induction false} AllSeen(log: seq<Record>, nowHour: int, r: Retention, i: nat)
    requires i < |log|
    ensures Seen(Replay(EMPTY, log, nowHour, r), log[i])
  {
    hide Ingest, Seen;
    var rest, rec := log[..|log| - 1], log[|log| - 1];
    if i == |log| - 1 {
      IngestSees(Replay(EMPTY, rest, nowHour, r), rec, nowHour, r);
    } else {
      AllSeen(rest, nowHour, r, i);
      SeenStays(Replay(EMPTY, rest, nowHour, r), rest[i], rec, nowHour, r);
    }
  }

  /** A seen record moves neither a window nor a time. */
  lemma {:induction false} SeenIsIdle(s: State, rec: Record, nowHour: int, r: Retention)
    requires Seen(s, rec)
    ensures var t := Ingest(s, rec, nowHour, r);
            t.windows == s.windows && t.lastOK == s.lastOK && t.dirty == s.dirty
  {
    hide MergeHour;
    if rec.HourRecord? {
      MergeHourFrame(s, rec.key, rec.hour, rec.value, nowHour, r);
    }
  }

  lemma {:induction false} SeenLogIsIdle(s: State, log: seq<Record>, nowHour: int, r: Retention)
    requires forall i :: 0 <= i < |log| ==> Seen(s, log[i])
    ensures var t := Replay(s, log, nowHour, r);
            && t.windows == s.windows && t.lastOK == s.lastOK && t.dirty == s.dirty
            && (forall rec: Record :: Seen(s, rec) ==> Seen(t, rec))
  {
    hide Ingest, Seen;
    if log == [] {
    } else {
      var rest, last := log[..|log| - 1], log[|log| - 1];
      SeenLogIsIdle(s, rest, nowHour, r);
      var t := Replay(s, rest, nowHour, r);
      SeenIsIdle(t, last, nowHour, r);
      forall rec: Record | Seen(s, rec)
        ensures Seen(Ingest(t, last, nowHour, r), rec)
      {
        SeenStays(t, rec, last, nowHour, r);
      }
    }
  }

  lemma {:induction false} ReplayConcat(s: State, a: seq<Record>, b: seq<Record>, nowHour: int, r: Retention)
    ensures Replay(s, a + b, nowHour, r) == Replay(Replay(s, a, nowHour, r), b, nowHour, r)
    decreases |b|
  {
    hide Ingest;
    if b == [] {
      assert a + b == a;
    } else {
      ReplayConcat(s, a, b[..|b| - 1], nowHour, r);
      assert (a + b)[..|a + b| - 1] == a + b[..|b| - 1];
    }
  }

  lemma {:induction false} SuffixKeepsHours(a: seq<Record>, b: seq<Record>, nowHour: int, r: Retention)
    ensures SameRetained(Replay(EMPTY, a + b + b, nowHour, r), Replay(EMPTY, a + b, nowHour, r), nowHour, r)
  {
    hide Replay, Held, Merged, HoursIn;
    forall k, h | h >= nowHour - r.hours - 1
      ensures Held(Replay(EMPTY, a + b + b, nowHour, r), k, h) == Held(Replay(EMPTY, a + b, nowHour, r), k, h)
    {
      ReplayedHour(a + b, nowHour, r, k, h);
      ReplayedHour(a + b + b, nowHour, r, k, h);
      HoursConcat(a, b, k, h);
      HoursConcat(a + b, b, k, h);
      MergedTwice(HoursIn(a, k, h), HoursIn(b, k, h));
    }
  }

  lemma {:induction false} SuffixKeepsLabels(a: seq<Record>, b: seq<Record>, nowHour: int, r: Retention)
    ensures Replay(EMPTY, a + b + b, nowHour, r).labels == Replay(EMPTY, a + b, nowHour, r).labels
  {
    hide Replay, LabelIn, Sampled;
    var x, y := Replay(EMPTY, a + b + b, nowHour, r), Replay(EMPTY, a + b, nowHour, r);
    forall k
      ensures LabelHeld(x, k) == LabelHeld(y, k)
    {
      ReplayedLabel(a + b, nowHour, r, k);
      ReplayedLabel(a + b + b, nowHour, r, k);
      LabelConcat(a, b, k);
      LabelConcat(a + b, b, k);
    }
    forall k: string
      ensures (k in x.labels <==> k in y.labels) && (k in x.labels ==> x.labels[k] == y.labels[k])
    {
      assert LabelHeld(x, k) == LabelHeld(y, k);
    }
  }

  /** A load that ingests some suffix of the log a second time ends, after its
      retention sweep, in the very same store. */
  lemma {:induction false} SuffixIngestedTwice(a: seq<Record>, b: seq<Record>, nowHour: int, r: Retention)
    ensures TrimRetention(Replay(EMPTY, a + b + b, nowHour, r), nowHour, r)
            == TrimRetention(Replay(EMPTY, a + b, nowHour, r), nowHour, r)
  {
    var s := Replay(EMPTY, a + b, nowHour, r);
    var t := Replay(EMPTY, a + b + b, nowHour, r);
    assert t.windows == s.windows && t.lastOK == s.lastOK && t.dirty == s.dirty by {
      hide Replay, Seen;
      forall i | 0 <= i < |b|
        ensures Seen(s, b[i])
      {
        AllSeen(a + b, nowHour, r, |a| + i);
      }
      SeenLogIsIdle(s, b, nowHour, r);
      ReplayConcat(EMPTY, a + b, b, nowHour, r);
    }
    hide Replay, Retained, KeptHours;
    SuffixKeepsLabels(a, b, nowHour, r);
    SuffixKeepsHours(a, b, nowHour, r);
    SameTrimmedHours(t, s, nowHour, r);
  }
}
