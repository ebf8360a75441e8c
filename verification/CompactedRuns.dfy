/** Compaction in the middle of a run. The file is a listing of the store taken at
    some moment, then everything logged from some earlier record on: no later
    restart can tell it from the whole log. */
module CompactedRuns {
  import opened Common
  import opened SampleStore
  import opened SampleReplay
  import opened SampleRecovery
  import opened SampleCompaction

  // ---- what an observation logs ----

  lemma {:induction false} StepLogsHour(s: State, key: string, hour: int, value: Hour, nowHour: int, r: Retention, k: string)
    ensures var t := BucketStep(s, key, hour, value, nowHour, r);
            && s.dirty <= t.dirty && t.labels == s.labels && t.lastOK == s.lastOK
            && LabelIn(t.dirty, k) == LabelIn(s.dirty, k) && NewestIn(t.dirty, k) == NewestIn(s.dirty, k)
  {
    hide MergeHour;
    MergeHourFrame(s, key, hour, value, nowHour, r);
    NewestAppend(s.dirty, HourRecord(key, hour, value), k);
  }

  /** Hour buckets log neither a sample nor a label. */
  lemma {:induction false} BucketsLogHours(s: State, key: string, buckets: seq<Bucket>, nowHour: int, r: Retention, k: string)
    ensures var t := MergeBuckets(s, key, buckets, nowHour, r);
            && s.dirty <= t.dirty && t.labels == s.labels && t.lastOK == s.lastOK
            && LabelIn(t.dirty, k) == LabelIn(s.dirty, k) && NewestIn(t.dirty, k) == NewestIn(s.dirty, k)
    decreases |buckets|
  {
    hide MergeHour, LabelIn, NewestIn;
    if buckets == [] {
      assert MergeBuckets(s, key, buckets, nowHour, r) == s;
    } else {
      var b := buckets[0];
      if b.hour.Some? {
        var value := Hour(b.usd, !b.partial);
        var t := BucketStep(s, key, b.hour.value, value, nowHour, r);
        StepLogsHour(s, key, b.hour.value, value, nowHour, r, k);
        assert MergeBuckets(s, key, buckets, nowHour, r) == MergeBuckets(t, key, buckets[1..], nowHour, r);
        BucketsLogHours(t, key, buckets[1..], nowHour, r, k);
      } else {
        BucketsLogHours(s, key, buckets[1..], nowHour, r, k);
      }
    }
  }

  /** Window samples log no label; each one due is logged at its own instant. */
  lemma {:induction false} WindowsLogSamples(s: State, key: string, ws: seq<(string, Sample)>, at: nat, r: Retention, k: string)
    requires WindowsOk(s, r) && Ready(s, key, ws, at) && NewestIn(s.dirty, key) <= at
    ensures var t := AddWindows(s, key, ws, r);
            && s.dirty <= t.dirty && t.labels == s.labels && LabelIn(t.dirty, k) == LabelIn(s.dirty, k)
            && NewestIn(t.dirty, k) == if k == key && ws != [] then at else NewestIn(s.dirty, k)
    decreases |ws|
  {
    hide WindowsOk, SamplesIn, NewestIn;
    if ws == [] {
      assert AddWindows(s, key, ws, r) == s;
    } else {
      var id, w := WindowId(key, ws[0].0), ws[0].1;
      AddWindowKeeps(s, id, w, r);
      var t := AddWindow(s, id, w, r);
      assert t.labels == s.labels;
      hide AddWindow;
      assert LabelIn(t.dirty, k) == LabelIn(s.dirty, k);
      NewestAppend(s.dirty, SampleRecord(id, w), k);
      NewestAppend(s.dirty, SampleRecord(id, w), key);
      forall other
        ensures SamplesIn(t.dirty, other) == if other == id then SamplesIn(s.dirty, id) + [w] else SamplesIn(s.dirty, other)
      {
        assert SamplesIn(s.dirty, other) + [] == SamplesIn(s.dirty, other);
      }
      WindowsLogSamples(t, key, ws[1..], at, r, k);
    }
  }

  lemma {:induction false} RelabelLogs(s: State, key: string, name: string, r: Retention, k: string)
    requires WindowsOk(s, r)
    ensures var t := Relabel(s, key, name);
            && WindowsOk(t, r) && s.dirty <= t.dirty && t.lastOK == s.lastOK && NewestIn(t.dirty, k) == NewestIn(s.dirty, k)
            && (LabelHeld(s, k) == LabelIn(s.dirty, k) ==> LabelHeld(t, k) == LabelIn(t.dirty, k))
            && (forall id :: SamplesIn(t.dirty, id) == SamplesIn(s.dirty, id))
  {
    hide WindowsOk, SamplesIn, NewestIn;
    var t := Relabel(s, key, name);
    if t != s {
      QuietRecord(s, t, LabelRecord(key, name), r);
      NewestAppend(s.dirty, LabelRecord(key, name), k);
    }
  }

  lemma {:induction false} ApplyLogs(s: State, snap: Snapshot, nowHour: int, r: Retention, k: string)
    requires WindowsOk(s, r) && KnownTimes(s) && NewestIn(s.dirty, snap.key) <= LastOf(s, snap.key)
    ensures var t := Apply(s, snap, nowHour, r);
            && s.dirty <= t.dirty
            && (LabelHeld(s, k) == LabelIn(s.dirty, k) ==> LabelHeld(t, k) == LabelIn(t.dirty, k))
            && NewestIn(t.dirty, k) == (if Accepted(s, snap) && k == snap.key && Observed(snap) != [] then snap.at else NewestIn(s.dirty, k))
            && LastOf(t, k) == (if Accepted(s, snap) && k == snap.key then snap.at else LastOf(s, k))
  {
    hide WindowsOk, SamplesIn, AddWindows, MergeBuckets, Observed, NewestIn, LabelIn, Relabel;
    if Accepted(s, snap) {
      var s0 := s.(lastOK := s.lastOK[snap.key := snap.at]);
      SameWindows(s, s0, r);
      assert LabelHeld(s0, k) == LabelHeld(s, k);
      var s1 := Relabel(s0, snap.key, snap.label_);
      RelabelLogs(s0, snap.key, snap.label_, r, k);
      RelabelLogs(s0, snap.key, snap.label_, r, snap.key);
      ObservedNames(snap);
      AddWindowsKeeps(s1, snap.key, Observed(snap), snap.at, r);
      WindowsLogSamples(s1, snap.key, Observed(snap), snap.at, r, k);
      BucketsLogHours(AddWindows(s1, snap.key, Observed(snap), r), snap.key, snap.hours, nowHour, r, k);
    }
  }

  // ---- the time of the last observation ----

  /** The last observation of the key that was accepted. */
  function LastAccepted(obs: seq<Observation>, key: string, r: Retention): Option<Snapshot> {
    if obs == [] then None
    else
      var rest, o := obs[..|obs| - 1], obs[|obs| - 1];
      if Accepted(Live(rest, r), o.snap) && o.snap.key == key then Some(o.snap) else LastAccepted(rest, key, r)
  }

  lemma {:induction false} LiveTimes(obs: seq<Observation>, r: Retention, key: string)
    ensures var live, last := Live(obs, r), LastAccepted(obs, key, r);
            && NewestIn(live.dirty, key) <= LastOf(live, key)
            && LastOf(live, key) == (if last.Some? then last.value.at else 0)
            && (NewestIn(live.dirty, key) == LastOf(live, key) <==> last.None? || Observed(last.value) != [])
            && LabelHeld(live, key) == LabelIn(live.dirty, key)
  {
    hide Apply, NewestIn, Observed, WindowsOk, KnownTimes;
    if obs == [] {
      assert NewestIn(EMPTY.dirty, key) == 0 && LabelHeld(EMPTY, key) == LabelIn(EMPTY.dirty, key) by {
        NothingLogged(key);
      }
    } else {
      var rest, o := obs[..|obs| - 1], obs[|obs| - 1];
      LiveTimes(rest, r, key);
      LiveTimes(rest, r, o.snap.key);
      LiveWindows(rest, r);
      ApplyLogs(Live(rest, r), o.snap, o.nowHour, r, key);
    }
  }

  lemma {:induction false} NothingLogged(key: string)
    ensures NewestIn([], key) == 0 && LabelIn([], key) == None
  {
  }

  /** After a restart the time of a key's last observation is that of its newest
      logged sample: never later than the live one, and the live one exactly if
      the last accepted observation carried some window. */
  lemma {:induction false} RestartedTime(obs: seq<Observation>, nowHour: int, r: Retention, key: string)
    ensures var live, last := Live(obs, r), LastAccepted(obs, key, r);
            var restarted := Replay(EMPTY, live.dirty, nowHour, r);
            && LastOf(restarted, key) <= LastOf(live, key)
            && (LastOf(restarted, key) == LastOf(live, key) <==> last.None? || Observed(last.value) != [])
  {
    hide *;
    LiveTimes(obs, r, key);
    ReplayedTime(Live(obs, r).dirty, nowHour, r, key);
  }

  // ---- compaction in the middle of a run ----

  lemma {:induction false} LogGrows(obs: seq<Observation>, m: nat, r: Retention)
    requires m <= |obs|
    ensures Live(obs[..m], r).dirty <= Live(obs, r).dirty
    decreases |obs|
  {
    hide Apply, WindowsOk, KnownTimes;
    if m == |obs| {
      assert obs[..m] == obs;
    } else {
      var rest, o := obs[..|obs| - 1], obs[|obs| - 1];
      assert rest[..m] == obs[..m];
      LogGrows(rest, m, r);
      LiveTimes(rest, r, o.snap.key);
      LiveWindows(rest, r);
      ApplyLogs(Live(rest, r), o.snap, o.nowHour, r, o.snap.key);
    }
  }

  lemma {:induction false} KeptConcat(xs: seq<Sample>, ys: seq<Sample>, newest: nat, r: Retention)
    ensures Kept(xs + ys, newest, r) == Kept(xs, newest, r) + Kept(ys, newest, r)
    decreases |ys|
  {
    if ys == [] {
      assert xs + ys == xs;
    } else {
      var rest, last := ys[..|ys| - 1], ys[|ys| - 1];
      KeptConcat(xs, rest, newest, r);
      assert xs + ys == (xs + rest) + [last];
      KeptAppend(xs + rest, last, newest, r);
    }
  }

  lemma {:induction false} KeptIff(xs: seq<Sample>, newest: nat, r: Retention, w: Sample)
    ensures w in Kept(xs, newest, r) <==> w in xs && w.ts as int >= newest as int - r.history as int
  {
    if xs == [] {
      assert Kept(xs, newest, r) == [];
    } else {
      KeptIff(xs[..|xs| - 1], newest, r, w);
    }
  }

  lemma {:induction false} RisingIsApart(xs: seq<Sample>)
    requires Rising(xs)
    ensures Apart(xs)
  {
  }

  /** Entering old samples again, trimmed ones among them, leaves what a trim at a
      later instant keeps. */
  lemma {:induction false} OldSamplesEnter(xs: seq<Sample>, again: seq<Sample>, newest: nat, r: Retention)
    requires Rising(xs) && (forall w :: w in again ==> w in xs) && LastTs(xs) <= newest
    ensures var kept := Kept(xs, LastTs(xs), r);
            var seen := Entered(kept + again);
            && Kept(seen, newest, r) == Kept(xs, newest, r) && Apart(seen)
            && (forall w :: w in kept ==> w in seen) && (forall w :: w in seen ==> w in xs)
    decreases |again|
  {
    hide Kept;
    var kept := Kept(xs, LastTs(xs), r);
    if again == [] {
      assert kept + again == kept;
      RisingIsApart(xs);
      KeptApart(xs, LastTs(xs), r);
      ApartEnters(kept);
      KeptTwice(xs, LastTs(xs), newest, r);
      KeptIsPart(xs, LastTs(xs), r);
    } else {
      var rest, w := again[..|again| - 1], again[|again| - 1];
      OldSamplesEnter(xs, rest, newest, r);
      var seen := Entered(kept + rest);
      assert kept + again == kept + rest + [w];
      EnteredAppend(kept + rest, w);
      if !Stamped(seen, w.ts) {
        assert w !in seen;
        KeptIff(xs, LastTs(xs), r, w);
        KeptAppend(seen, w, newest, r);
        assert Kept(seen, newest, r) + [] == Kept(seen, newest, r);
      }
    }
  }

  lemma {:induction false} NewestConcat(xs: seq<Sample>, ys: seq<Sample>)
    ensures Newest(xs + ys) == Later(Newest(xs), Newest(ys))
    decreases |ys|
  {
    if ys == [] {
      assert xs + ys == xs;
    } else {
      NewestConcat(xs, ys[..|ys| - 1]);
      assert xs + ys == xs + ys[..|ys| - 1] + [ys[|ys| - 1]];
      NewestSeries(xs + ys[..|ys| - 1], ys[|ys| - 1]);
    }
  }

  lemma {:induction false} NewestOfPart(xs: seq<Sample>, part: seq<Sample>)
    requires Rising(xs) && forall w :: w in part ==> w in xs
    ensures Newest(part) <= LastTs(xs)
  {
    if part == [] {
      assert Newest(part) == 0;
    } else {
      var last := part[|part| - 1];
      NewestOfPart(xs, part[..|part| - 1]);
      assert last in xs;
      var n :| 0 <= n < |xs| && xs[n] == last;
      assert n < |xs| - 1 ==> xs[n].ts < xs[|xs| - 1].ts;
    }
  }

  /** New samples after old ones. */
  lemma {:induction false} CutApart(xs: seq<Sample>, seen: seq<Sample>, ys: seq<Sample>)
    requires Rising(xs + ys) && Apart(seen) && forall w :: w in seen ==> w in xs
    ensures Apart(seen + ys)
  {
    forall i, j | 0 <= i < |seen| && 0 <= j < |ys|
      ensures seen[i].ts != ys[j].ts
    {
      assert seen[i] in xs;
      var n :| 0 <= n < |xs| && xs[n] == seen[i];
      assert (xs + ys)[n] == seen[i] && (xs + ys)[|xs| + j] == ys[j];
    }
    assert forall j :: 0 <= j < |ys| ==> (xs + ys)[|xs| + j] == ys[j];
  }

  /** One window: its samples `xs` before the cut, trimmed there, then some of them
      again, then the samples `ys` that came later. */
  lemma {:induction false} CutSeries(xs: seq<Sample>, again: seq<Sample>, ys: seq<Sample>, r: Retention)
    requires Rising(xs + ys) && forall w :: w in again ==> w in xs
    ensures var cut := Kept(xs, LastTs(xs), r) + again + ys;
            && Retained(Entered(cut), r) == Retained(Entered(xs + ys), r) && Newest(cut) == Newest(xs + ys)
            && (cut != [] <==> xs + ys != [])
  {
    hide Kept, Entered, Newest;
    var kept, newest := Kept(xs, LastTs(xs), r), LastTs(xs + ys);
    CutFacts(xs, again, ys, r);
    OldSamplesEnter(xs, again, newest, r);
    var seen := Entered(kept + again);
    CutApart(xs, seen, ys);
    NewSamplesEnter(kept + again, ys);
    RisingIsApart(xs + ys);
    ApartEnters(xs + ys);
    KeptConcat(seen, ys, newest, r);
    KeptConcat(xs, ys, newest, r);
    SeenNewest(xs, seen, ys, kept);
  }

  lemma {:induction false} SeenNewest(xs: seq<Sample>, seen: seq<Sample>, ys: seq<Sample>, kept: seq<Sample>)
    requires Rising(xs + ys) && (forall w :: w in seen ==> w in xs) && (forall w :: w in kept ==> w in seen)
    requires xs != [] ==> kept != [] && kept[|kept| - 1] == xs[|xs| - 1]
    ensures Newest(seen + ys) == LastTs(xs + ys) == Newest(xs + ys)
  {
    NewestIsLast(xs + ys);
    assert forall i :: 0 <= i < |xs| ==> xs[i] == (xs + ys)[i];
    assert Rising(xs);
    NewestIsLast(xs);
    NewestConcat(seen, ys);
    NewestConcat(xs, ys);
    NewestOfPart(xs, seen);
    if xs != [] {
      assert kept[|kept| - 1] in kept;
      var n :| 0 <= n < |seen| && seen[n] == xs[|xs| - 1];
      assert Stamped(seen, xs[|xs| - 1].ts);
      StampedIsNotNewer(seen, xs[|xs| - 1].ts);
    }
  }

  lemma {:induction false} PartOfNothing(xs: seq<Sample>, part: seq<Sample>)
    requires forall w :: w in part ==> w in xs
    ensures part != [] ==> xs != []
  {
    if part != [] {
      assert part[0] in part;
    }
  }

  lemma {:induction false} CutFacts(xs: seq<Sample>, again: seq<Sample>, ys: seq<Sample>, r: Retention)
    requires Rising(xs + ys) && forall w :: w in again ==> w in xs
    ensures var kept := Kept(xs, LastTs(xs), r);
            && Rising(xs) && LastTs(xs) <= LastTs(xs + ys) && (kept != [] <==> xs != [])
            && (xs != [] ==> kept != [] && kept[|kept| - 1] == xs[|xs| - 1])
            && (kept + again + ys != [] <==> xs + ys != [])
            && Newest(kept + again + ys) == Newest(xs + ys)
  {
    hide Newest;
    var kept := Kept(xs, LastTs(xs), r);
    assert forall i :: 0 <= i < |xs| ==> xs[i] == (xs + ys)[i];
    if xs == [] {
      PartOfNothing(xs, again);
      assert kept + again + ys == xs + ys;
    } else {
      KeptLast(xs, xs[|xs| - 1], r);
      assert ys != [] ==> (xs + ys)[|xs| - 1].ts < (xs + ys)[|xs + ys| - 1].ts;
      KeptIsPart(xs, LastTs(xs), r);
      hide Kept;
      NewestOfPart(xs, kept + again);
      assert (kept + again)[|kept| - 1].ts == LastTs(xs);
      StampedIsNotNewer(kept + again, LastTs(xs));
      NewestIsLast(xs);
      NewestConcat(kept + again, ys);
      NewestConcat(xs, ys);
    }
  }

  lemma {:induction false} SamplesOfSuffix(log: seq<Record>, j: nat, id: WindowId)
    requires j <= |log|
    ensures forall w :: w in SamplesIn(log[j..], id) ==> w in SamplesIn(log, id)
  {
    assert log[..j] + log[j..] == log;
    SamplesConcat(log[..j], log[j..], id);
  }

  // ---- the file after a compaction ----

  /** The listing of the store after `m` observations, then all that the run has
      logged from record `j` on. */
  function Compacted(obs: seq<Observation>, log: seq<Record>, j: nat, r: Retention): seq<Record>
    requires j <= |Live(obs, r).dirty|
  {
    log + Live(obs, r).dirty[j..]
  }

  /** The listing was taken after `m` observations, and nothing logged after it is
      missing from the file; records it already covers may follow it again. */
  ghost predicate CutAt(obs: seq<Observation>, m: nat, log: seq<Record>, j: nat, r: Retention) {
    && m <= |obs| && Lists(log, Live(obs[..m], r)) && j <= |Live(obs[..m], r).dirty|
    && Live(obs[..m], r).dirty <= Live(obs, r).dirty
  }

  lemma {:induction false} CutWindow(obs: seq<Observation>, m: nat, log: seq<Record>, j: nat, r: Retention, id: WindowId)
    requires CutAt(obs, m, log, j, r)
    ensures var cut, whole := SamplesIn(Compacted(obs, log, j, r), id), SamplesIn(Live(obs, r).dirty, id);
            && Retained(Entered(cut), r) == Retained(Entered(whole), r) && Newest(cut) == Newest(whole) && (cut != [] <==> whole != [])
  {
    hide Live, SamplesIn, HoursIn, LabelIn, Retained, Newest, Kept, Held, Entered;
    var before, whole := Live(obs[..m], r), Live(obs, r).dirty;
    var again, later := before.dirty[j..], whole[|before.dirty|..];
    assert Compacted(obs, log, j, r) == log + again + later && whole == before.dirty + later;
    LiveWindows(obs, r);
    LiveWindows(obs[..m], r);
    assert WindowOk(Live(obs, r), id, r) && WindowOk(before, id, r);
    SamplesConcat(log, again, id);
    SamplesConcat(log + again, later, id);
    SamplesConcat(before.dirty, later, id);
    SamplesOfSuffix(before.dirty, j, id);
    assert SamplesIn(log, id) == Series(before, id);
    CutSeries(SamplesIn(before.dirty, id), SamplesIn(again, id), SamplesIn(later, id), r);
  }

  lemma {:induction false} CutHour(obs: seq<Observation>, m: nat, log: seq<Record>, j: nat, nowHour: int, r: Retention, k: string, h: int)
    requires CutAt(obs, m, log, j, r) && forall i :: 0 <= i < |obs| ==> obs[i].nowHour <= nowHour
    requires h >= nowHour - r.hours - 1
    ensures Merged(HoursIn(Compacted(obs, log, j, r), k, h)) == Merged(HoursIn(Live(obs, r).dirty, k, h))
  {
    hide Live, SamplesIn, HoursIn, LabelIn, Merged, Held;
    var before, whole := Live(obs[..m], r), Live(obs, r).dirty;
    var again, later := before.dirty[j..], whole[|before.dirty|..];
    assert Compacted(obs, log, j, r) == log + again + later && whole == before.dirty + later;
    assert Outlives(obs[..m], h, r);
    LiveHour(obs[..m], r, k, h);
    OneMerges(Held(before, k, h));
    assert HoursIn(log, k, h) == Values(Held(before, k, h));
    var xs, os := HoursIn(before.dirty, k, h), HoursIn(again, k, h);
    assert before.dirty == before.dirty[..j] + again;
    HoursConcat(before.dirty[..j], again, k, h);
    MergedTwice(HoursIn(before.dirty[..j], k, h), os);
    MergedConcat(HoursIn(log, k, h), xs, os);
    HoursConcat(log, again, k, h);
    HoursConcat(log + again, later, k, h);
    HoursConcat(before.dirty, later, k, h);
    MergedConcat(HoursIn(log, k, h) + os, xs, HoursIn(later, k, h));
  }

  lemma {:induction false} CutLabel(obs: seq<Observation>, m: nat, log: seq<Record>, j: nat, r: Retention, k: string)
    requires CutAt(obs, m, log, j, r)
    ensures LabelIn(Compacted(obs, log, j, r), k) == LabelIn(Live(obs, r).dirty, k)
  {
    hide Live, SamplesIn, HoursIn, LabelIn, Held, NewestIn, Observed;
    var before, whole := Live(obs[..m], r), Live(obs, r).dirty;
    assert LabelIn(log, k) == LabelHeld(before, k);
    LiveTimes(obs[..m], r, k);
    assert before.dirty == before.dirty[..j] + before.dirty[j..] && whole == before.dirty[..j] + whole[j..];
    assert whole[j..] == before.dirty[j..] + whole[|before.dirty|..];
    LabelConcat(before.dirty[..j], before.dirty[j..], k);
    LabelConcat(before.dirty[..j], whole[j..], k);
    LabelConcat(before.dirty[j..], whole[|before.dirty|..], k);
    LabelConcat(log, whole[j..], k);
  }

  /** Compacting after any number of observations, then appending all that is
      logged from then on, records the listing already covers included: a later
      restart recovers the very store that the whole log, never compacted, would
      have given. */
  lemma {:induction false} CompactionIsInvisible(obs: seq<Observation>, m: nat, log: seq<Record>, j: nat, nowHour: int, r: Retention)
    requires m <= |obs| && Lists(log, Live(obs[..m], r)) && j <= |Live(obs[..m], r).dirty|
    requires forall i :: 0 <= i < |obs| ==> obs[i].nowHour <= nowHour
    ensures var whole := Live(obs, r).dirty;
            && Live(obs[..m], r).dirty <= whole
            && TrimRetention(Replay(EMPTY, log + whole[j..], nowHour, r), nowHour, r)
               == TrimRetention(Replay(EMPTY, whole, nowHour, r), nowHour, r)
  {
    hide Live, TrimRetention, Replay, Lists, SamplesIn, HoursIn, LabelIn, Retained, Newest, Merged, Entered;
    LogGrows(obs, m, r);
    var cut, whole := Compacted(obs, log, j, r), Live(obs, r).dirty;
    forall id
      ensures Retained(Entered(SamplesIn(cut, id)), r) == Retained(Entered(SamplesIn(whole, id)), r)
      ensures Newest(SamplesIn(cut, id)) == Newest(SamplesIn(whole, id))
      ensures SamplesIn(cut, id) != [] <==> SamplesIn(whole, id) != []
    {
      CutWindow(obs, m, log, j, r, id);
    }
    forall k, h | h >= nowHour - r.hours - 1
      ensures Merged(HoursIn(cut, k, h)) == Merged(HoursIn(whole, k, h))
    {
      CutHour(obs, m, log, j, nowHour, r, k, h);
    }
    forall k
      ensures LabelIn(cut, k) == LabelIn(whole, k)
    {
      CutLabel(obs, m, log, j, r, k);
    }
    AlikeRestoreAlike(cut, whole, nowHour, r);
  }
}
