/** Compaction: the log rewritten as a listing of the retained store. In whatever
    order the maps are walked, the listing reads back as the store. */
module SampleCompaction {
  import opened Common
  import opened SampleStore
  import opened SampleReplay
  import opened SampleRecovery

  function Values(v: Option<Hour>): seq<Hour> { if v.Some? then [v.value] else [] }

  /** The log lists the store: each series in its order, each bucket and each
      label once; nothing is said of how they interleave. */
  ghost predicate Lists(log: seq<Record>, s: State) {
    && (forall id :: SamplesIn(log, id) == Series(s, id))
    && (forall k, h :: HoursIn(log, k, h) == Values(Held(s, k, h)))
    && (forall k :: LabelIn(log, k) == LabelHeld(s, k))
  }

  // ---- the newest sample of a key ----

  function Later(a: nat, b: nat): nat { if a > b then a else b }

  function NewestIn(log: seq<Record>, key: string): nat {
    if log == [] then 0
    else
      var rec := log[|log| - 1];
      Later(NewestIn(log[..|log| - 1], key), if rec.SampleRecord? && rec.id.key == key then rec.sample.ts else 0)
  }

  lemma {:induction false} NewestAppend(log: seq<Record>, rec: Record, key: string)
    ensures NewestIn(log + [rec], key)
            == Later(NewestIn(log, key), if rec.SampleRecord? && rec.id.key == key then rec.sample.ts else 0)
  {
    assert (log + [rec])[..|log|] == log;
  }

  /** Replay takes the newest logged sample for the time of the last observation. */
  lemma {:induction false} ReplayedTime(log: seq<Record>, nowHour: int, r: Retention, key: string)
    ensures var s := Replay(EMPTY, log, nowHour, r);
            LastOf(s, key) == NewestIn(log, key) && (key in s.lastOK <==> NewestIn(log, key) > 0)
  {
    hide MergeHour, Stamped;
    if log == [] {
      assert NewestIn(log, key) == 0;
    } else {
      var rest, rec := log[..|log| - 1], log[|log| - 1];
      ReplayedTime(rest, nowHour, r, key);
      if rec.HourRecord? {
        MergeHourFrame(Replay(EMPTY, rest, nowHour, r), rec.key, rec.hour, rec.value, nowHour, r);
      }
    }
  }

  lemma {:induction false} NewestSeries(xs: seq<Sample>, w: Sample)
    ensures Newest(xs + [w]) == Later(Newest(xs), w.ts)
  {
    assert (xs + [w])[..|xs|] == xs;
  }

  lemma {:induction false} NewestBounds(log: seq<Record>, id: WindowId)
    ensures Newest(SamplesIn(log, id)) <= NewestIn(log, id.key)
  {
    if log == [] {
      assert SamplesIn(log, id) == [];
    } else {
      var rest, rec := log[..|log| - 1], log[|log| - 1];
      NewestBounds(rest, id);
      if rec.SampleRecord? && rec.id == id {
        NewestSeries(SamplesIn(rest, id), rec.sample);
      } else {
        assert SamplesIn(rest, id) + [] == SamplesIn(rest, id);
      }
    }
  }

  lemma {:induction false} NewestAttained(log: seq<Record>, key: string) returns (id: WindowId)
    requires NewestIn(log, key) > 0
    ensures id.key == key && Newest(SamplesIn(log, id)) == NewestIn(log, key)
  {
    var rest, rec := log[..|log| - 1], log[|log| - 1];
    if NewestIn(rest, key) == NewestIn(log, key) {
      id := NewestAttained(rest, key);
      NewestBounds(log, id);
      if rec.SampleRecord? && rec.id == id {
        NewestSeries(SamplesIn(rest, id), rec.sample);
      } else {
        assert SamplesIn(rest, id) + [] == SamplesIn(rest, id);
      }
    } else {
      id := rec.id;
      NewestBounds(rest, id);
      NewestSeries(SamplesIn(rest, id), rec.sample);
    }
  }

  lemma {:induction false} SameNewest(a: seq<Record>, b: seq<Record>, key: string)
    requires forall id: WindowId :: id.key == key ==> Newest(SamplesIn(a, id)) == Newest(SamplesIn(b, id))
    ensures NewestIn(a, key) == NewestIn(b, key)
  {
    hide NewestIn, SamplesIn;
    if NewestIn(a, key) > 0 {
      var id := NewestAttained(a, key);
      NewestBounds(b, id);
    }
    if NewestIn(b, key) > 0 {
      var id := NewestAttained(b, key);
      NewestBounds(a, id);
    }
  }

  lemma {:induction false} SampledIff(log: seq<Record>, key: string)
    ensures Sampled(log, key) <==> exists id: WindowId :: id.key == key && SamplesIn(log, id) != []
  {
    if log == [] {
      assert forall id: WindowId :: SamplesIn(log, id) == [];
    } else {
      var rest, rec := log[..|log| - 1], log[|log| - 1];
      SampledIff(rest, key);
      assert forall id: WindowId :: SamplesIn(log, id) != [] <==> SamplesIn(rest, id) != [] || (rec.SampleRecord? && rec.id == id);
    }
  }

  // ---- samples of one window, repeated instants dropped ----

  /** Ingestion drops a sample whose instant the series already has. */
  function Entered(xs: seq<Sample>): seq<Sample> {
    if xs == [] then []
    else
      var rest, last := Entered(xs[..|xs| - 1]), xs[|xs| - 1];
      if Stamped(rest, last.ts) then rest else rest + [last]
  }

  lemma {:induction false} EnteredAppend(xs: seq<Sample>, w: Sample)
    ensures Entered(xs + [w]) == if Stamped(Entered(xs), w.ts) then Entered(xs) else Entered(xs) + [w]
  {
    assert (xs + [w])[..|xs|] == xs;
  }

  lemma {:induction false} EnteredNotEmpty(xs: seq<Sample>)
    ensures Entered(xs) != [] <==> xs != []
  {
    if xs == [] {
      assert Entered(xs) == [];
    } else {
      EnteredNotEmpty(xs[..|xs| - 1]);
    }
  }

  lemma {:induction false} ReplayEnters(log: seq<Record>, nowHour: int, r: Retention, id: WindowId)
    ensures var s := Replay(EMPTY, log, nowHour, r);
            Series(s, id) == Entered(SamplesIn(log, id)) && (id in s.windows <==> SamplesIn(log, id) != [])
  {
    hide MergeHour, Stamped;
    if log == [] {
      assert SamplesIn(log, id) == [];
    } else {
      var rest, rec := log[..|log| - 1], log[|log| - 1];
      ReplayEnters(rest, nowHour, r, id);
      if rec.HourRecord? {
        MergeHourFrame(Replay(EMPTY, rest, nowHour, r), rec.key, rec.hour, rec.value, nowHour, r);
      }
      if rec.SampleRecord? && rec.id == id {
        EnteredAppend(SamplesIn(rest, id), rec.sample);
      } else {
        assert SamplesIn(rest, id) + [] == SamplesIn(rest, id);
      }
    }
  }

  /** Samples of instants the series lacks all enter. */
  lemma {:induction false} NewSamplesEnter(xs: seq<Sample>, ys: seq<Sample>)
    requires Apart(Entered(xs) + ys)
    ensures Entered(xs + ys) == Entered(xs) + ys
  {
    if ys == [] {
      assert xs + ys == xs && Entered(xs) + ys == Entered(xs);
    } else {
      var rest, last, seen := ys[..|ys| - 1], ys[|ys| - 1], Entered(xs);
      assert seen + ys == seen + rest + [last];
      assert Apart(seen + rest) by {
        assert forall i :: 0 <= i < |seen + rest| ==> (seen + rest)[i] == (seen + ys)[i];
      }
      NewSamplesEnter(xs, rest);
      assert xs + ys == xs + rest + [last];
      EnteredAppend(xs + rest, last);
      forall i | 0 <= i < |seen + rest|
        ensures (seen + rest)[i].ts != last.ts
      {
        assert (seen + ys)[i].ts != (seen + ys)[|seen + rest|].ts;
      }
    }
  }

  lemma {:induction false} ApartEnters(xs: seq<Sample>)
    requires Apart(xs)
    ensures Entered(xs) == xs
  {
    assert Entered([]) + xs == xs && [] + xs == xs;
    NewSamplesEnter([], xs);
  }

  // ---- what a restart depends on ----

  /** Two logs that no restart from `nowHour` on can tell apart. */
  ghost predicate Alike(a: seq<Record>, b: seq<Record>, nowHour: int, r: Retention) {
    && (forall id :: Retained(Entered(SamplesIn(a, id)), r) == Retained(Entered(SamplesIn(b, id)), r))
    && (forall id :: Newest(SamplesIn(a, id)) == Newest(SamplesIn(b, id)))
    && (forall id :: SamplesIn(a, id) != [] <==> SamplesIn(b, id) != [])
    && (forall k, h :: h >= nowHour - r.hours - 1 ==> Merged(HoursIn(a, k, h)) == Merged(HoursIn(b, k, h)))
    && (forall k :: LabelIn(a, k) == LabelIn(b, k))
  }

  lemma {:induction false} RestoredWindow(log: seq<Record>, nowHour: int, r: Retention, id: WindowId)
    ensures var t, xs := TrimRetention(Replay(EMPTY, log, nowHour, r), nowHour, r), Entered(SamplesIn(log, id));
            && (id in t.windows <==> Retained(xs, r) != [])
            && (id in t.windows ==> t.windows[id] == Retained(xs, r))
  {
    hide Replay, SamplesIn, Entered, KeptHours;
    ReplayEnters(log, nowHour, r, id);
  }

  lemma {:induction false} SameWindowsRestored(a: seq<Record>, b: seq<Record>, nowHour: int, r: Retention)
    requires forall id :: Retained(Entered(SamplesIn(a, id)), r) == Retained(Entered(SamplesIn(b, id)), r)
    ensures TrimRetention(Replay(EMPTY, a, nowHour, r), nowHour, r).windows == TrimRetention(Replay(EMPTY, b, nowHour, r), nowHour, r).windows
  {
    hide TrimRetention, Replay, Retained, SamplesIn, Entered;
    var s, t := TrimRetention(Replay(EMPTY, a, nowHour, r), nowHour, r), TrimRetention(Replay(EMPTY, b, nowHour, r), nowHour, r);
    forall id
      ensures (id in s.windows <==> id in t.windows) && (id in s.windows ==> s.windows[id] == t.windows[id])
    {
      RestoredWindow(a, nowHour, r, id);
      RestoredWindow(b, nowHour, r, id);
    }
  }

  lemma {:induction false} SameLabelsRestored(a: seq<Record>, b: seq<Record>, nowHour: int, r: Retention)
    requires forall id :: SamplesIn(a, id) != [] <==> SamplesIn(b, id) != []
    requires forall k :: LabelIn(a, k) == LabelIn(b, k)
    ensures Replay(EMPTY, a, nowHour, r).labels == Replay(EMPTY, b, nowHour, r).labels
  {
    hide Replay, LabelIn, Sampled, SamplesIn;
    var s, t := Replay(EMPTY, a, nowHour, r), Replay(EMPTY, b, nowHour, r);
    forall k
      ensures LabelHeld(s, k) == LabelHeld(t, k)
    {
      ReplayedLabel(a, nowHour, r, k);
      ReplayedLabel(b, nowHour, r, k);
      SampledIff(a, k);
      SampledIff(b, k);
    }
    forall k: string
      ensures (k in s.labels <==> k in t.labels) && (k in s.labels ==> s.labels[k] == t.labels[k])
    {
      assert LabelHeld(s, k) == LabelHeld(t, k);
    }
  }

  lemma {:induction false} SameTimesRestored(a: seq<Record>, b: seq<Record>, nowHour: int, r: Retention)
    requires forall id :: Newest(SamplesIn(a, id)) == Newest(SamplesIn(b, id))
    ensures Replay(EMPTY, a, nowHour, r).lastOK == Replay(EMPTY, b, nowHour, r).lastOK
  {
    hide Replay, NewestIn, SamplesIn, Newest;
    var s, t := Replay(EMPTY, a, nowHour, r), Replay(EMPTY, b, nowHour, r);
    forall k: string
      ensures (k in s.lastOK <==> k in t.lastOK) && (k in s.lastOK ==> s.lastOK[k] == t.lastOK[k])
    {
      ReplayedTime(a, nowHour, r, k);
      ReplayedTime(b, nowHour, r, k);
      SameNewest(a, b, k);
      assert LastOf(s, k) == LastOf(t, k);
    }
  }

  lemma {:induction false} SameHoursRestored(a: seq<Record>, b: seq<Record>, nowHour: int, r: Retention)
    requires forall k, h :: h >= nowHour - r.hours - 1 ==> Merged(HoursIn(a, k, h)) == Merged(HoursIn(b, k, h))
    ensures SameRetained(Replay(EMPTY, a, nowHour, r), Replay(EMPTY, b, nowHour, r), nowHour, r)
  {
    hide Replay, Held, Merged, HoursIn;
    forall k, h | h >= nowHour - r.hours - 1
      ensures Held(Replay(EMPTY, a, nowHour, r), k, h) == Held(Replay(EMPTY, b, nowHour, r), k, h)
    {
      ReplayedHour(a, nowHour, r, k, h);
      ReplayedHour(b, nowHour, r, k, h);
    }
  }

  lemma {:induction false} ReplayQueuesNothing(log: seq<Record>, nowHour: int, r: Retention)
    ensures Replay(EMPTY, log, nowHour, r).dirty == []
  {
    hide Stamped, MergeHour;
    if log == [] {
      assert EMPTY.dirty == [];
    } else {
      var rest, rec := log[..|log| - 1], log[|log| - 1];
      ReplayQueuesNothing(rest, nowHour, r);
      if rec.HourRecord? {
        MergeHourFrame(Replay(EMPTY, rest, nowHour, r), rec.key, rec.hour, rec.value, nowHour, r);
      }
    }
  }

  /** Logs that are alike restore to one and the same store. */
  lemma {:induction false} AlikeRestoreAlike(a: seq<Record>, b: seq<Record>, nowHour: int, r: Retention)
    requires Alike(a, b, nowHour, r)
    ensures TrimRetention(Replay(EMPTY, a, nowHour, r), nowHour, r) == TrimRetention(Replay(EMPTY, b, nowHour, r), nowHour, r)
  {
    var s, t := Replay(EMPTY, a, nowHour, r), Replay(EMPTY, b, nowHour, r);
    SameWindowsRestored(a, b, nowHour, r);
    SameHoursRestored(a, b, nowHour, r);
    SameTrimmedHours(s, t, nowHour, r);
    SameLabelsRestored(a, b, nowHour, r);
    SameTimesRestored(a, b, nowHour, r);
    ReplayQueuesNothing(a, nowHour, r);
    ReplayQueuesNothing(b, nowHour, r);
    hide Replay, Retained, KeptHours, SamplesIn, HoursIn, LabelIn, Alike;
  }

  // ---- a listing reads back ----

  /** `t` is the newest sample the store holds for the key, 0 without one. */
  ghost predicate IsNewest(s: State, key: string, t: nat) {
    && (forall id: WindowId :: id.key == key ==> Newest(Series(s, id)) <= t)
    && (t > 0 ==> exists id: WindowId :: id.key == key && Newest(Series(s, id)) == t)
  }

  ghost predicate HasSamples(s: State, key: string) {
    exists id: WindowId :: id.key == key && Series(s, id) != []
  }

  lemma {:induction false} TrimmedWindow(s: State, nowHour: int, r: Retention, id: WindowId)
    ensures var u := TrimRetention(s, nowHour, r);
            && (id in u.windows <==> Retained(Series(s, id), r) != [])
            && (id in u.windows ==> u.windows[id] == Retained(Series(s, id), r))
  {
    hide KeptHours;
  }

  lemma {:induction false} ListedHours(s: State, log: seq<Record>, nowHour: int, r: Retention)
    requires Lists(log, s)
    ensures SameRetained(Replay(EMPTY, log, nowHour, r), s, nowHour, r)
  {
    hide Replay, Held, HoursIn, SamplesIn, LabelIn;
    forall k, h | h >= nowHour - r.hours - 1
      ensures Held(Replay(EMPTY, log, nowHour, r), k, h) == Held(s, k, h)
    {
      ReplayedHour(log, nowHour, r, k, h);
      assert HoursIn(log, k, h) == Values(Held(s, k, h));
      OneMerges(Held(s, k, h));
    }
  }

  lemma {:induction false} OneMerges(v: Option<Hour>)
    ensures Merged(Values(v)) == v
  {
    MergedIsBest(Values(v));
  }

  /** Any listing of any store, read back and swept, gives the swept windows and
      hours, the labels (a placeholder where samples had none), and for each key
      the time of its newest sample. */
  lemma {:induction false} ListingReadsBack(s: State, log: seq<Record>, nowHour: int, r: Retention)
    requires Lists(log, s) && forall id :: Apart(Series(s, id))
    ensures var t := TrimRetention(Replay(EMPTY, log, nowHour, r), nowHour, r);
            && t.windows == TrimRetention(s, nowHour, r).windows
            && t.hours == TrimRetention(s, nowHour, r).hours
    ensures var t := TrimRetention(Replay(EMPTY, log, nowHour, r), nowHour, r);
            && (forall k :: LabelHeld(t, k) == if LabelHeld(s, k).Some? then LabelHeld(s, k)
                                               else if HasSamples(s, k) then Some(DEFAULT_LABEL) else None)
            && (forall k :: IsNewest(s, k, LastOf(t, k)))
  {
    hide Replay, Retained, KeptHours, SamplesIn, HoursIn, LabelIn, Held, Sampled, NewestIn, Newest, Apart, Entered;
    var t, u := TrimRetention(Replay(EMPTY, log, nowHour, r), nowHour, r), TrimRetention(s, nowHour, r);
    forall id
      ensures (id in t.windows <==> id in u.windows) && (id in t.windows ==> t.windows[id] == u.windows[id])
    {
      RestoredWindow(log, nowHour, r, id);
      TrimmedWindow(s, nowHour, r, id);
      assert SamplesIn(log, id) == Series(s, id) && Apart(Series(s, id));
      ApartEnters(Series(s, id));
    }
    assert t.windows == u.windows;
    ListedHours(s, log, nowHour, r);
    SameTrimmedHours(Replay(EMPTY, log, nowHour, r), s, nowHour, r);
    forall k
      ensures LabelHeld(t, k) == if LabelHeld(s, k).Some? then LabelHeld(s, k) else if HasSamples(s, k) then Some(DEFAULT_LABEL) else None
      ensures IsNewest(s, k, LastOf(t, k))
    {
      ListedLabel(s, log, nowHour, r, k);
      ListedTime(s, log, nowHour, r, k);
      assert LabelHeld(t, k) == LabelHeld(Replay(EMPTY, log, nowHour, r), k);
      assert LastOf(t, k) == LastOf(Replay(EMPTY, log, nowHour, r), k);
    }
  }

  lemma {:induction false} ListedLabel(s: State, log: seq<Record>, nowHour: int, r: Retention, k: string)
    requires Lists(log, s)
    ensures LabelHeld(Replay(EMPTY, log, nowHour, r), k)
            == if LabelHeld(s, k).Some? then LabelHeld(s, k) else if HasSamples(s, k) then Some(DEFAULT_LABEL) else None
  {
    hide Replay, SamplesIn, HoursIn, LabelIn, Held, Sampled;
    ReplayedLabel(log, nowHour, r, k);
    SampledIff(log, k);
  }

  lemma {:induction false} ListedTime(s: State, log: seq<Record>, nowHour: int, r: Retention, k: string)
    requires Lists(log, s)
    ensures IsNewest(s, k, LastOf(Replay(EMPTY, log, nowHour, r), k))
  {
    hide Replay, SamplesIn, HoursIn, LabelIn, Held, NewestIn, Newest;
    ReplayedTime(log, nowHour, r, k);
    forall id: WindowId | id.key == k
      ensures Newest(Series(s, id)) <= NewestIn(log, k)
    {
      NewestBounds(log, id);
    }
    if NewestIn(log, k) > 0 {
      var id := NewestAttained(log, k);
      assert Newest(Series(s, id)) == NewestIn(log, k);
    }
  }

  // ---- compaction after a load ----

  lemma {:induction false} KeptIsPart(xs: seq<Sample>, newest: nat, r: Retention)
    ensures forall w :: w in Kept(xs, newest, r) ==> w in xs
  {
    if xs == [] {
      assert Kept(xs, newest, r) == [];
    } else {
      KeptIsPart(xs[..|xs| - 1], newest, r);
    }
  }

  lemma {:induction false} KeptApart(xs: seq<Sample>, newest: nat, r: Retention)
    requires Apart(xs)
    ensures Apart(Kept(xs, newest, r))
  {
    if xs == [] {
      assert Kept(xs, newest, r) == [];
    } else {
      var rest, last := xs[..|xs| - 1], xs[|xs| - 1];
      KeptApart(rest, newest, r);
      KeptIsPart(rest, newest, r);
      forall i | 0 <= i < |Kept(rest, newest, r)|
        ensures Kept(rest, newest, r)[i].ts != last.ts
      {
        assert Kept(rest, newest, r)[i] in rest;
      }
    }
  }

  /** Trimming at or after the newest sample keeps it. */
  lemma {:induction false} KeptNewest(xs: seq<Sample>, newest: nat, r: Retention)
    requires Newest(xs) <= newest
    ensures Newest(Kept(xs, newest, r)) <= Newest(xs)
    ensures Newest(xs) == newest ==> Newest(Kept(xs, newest, r)) == newest
  {
    if xs == [] {
      assert Kept(xs, newest, r) == [];
    } else {
      var rest, last := xs[..|xs| - 1], xs[|xs| - 1];
      KeptNewest(rest, newest, r);
      NewestSeries(Kept(rest, newest, r), last);
      assert Kept(rest, newest, r) + [] == Kept(rest, newest, r);
    }
  }

  lemma {:induction false} RetainedFacts(xs: seq<Sample>, r: Retention)
    requires Apart(xs)
    ensures var k := Retained(xs, r);
            Newest(k) == Newest(xs) && Apart(k) && Retained(k, r) == k
  {
    if Newest(xs) == 0 {
      assert Retained(xs, r) == [];
    } else {
      KeptNewest(xs, Newest(xs), r);
      KeptApart(xs, Newest(xs), r);
      KeptTwice(xs, Newest(xs), Newest(xs), r);
    }
  }

  lemma {:induction false} StampedIsNotNewer(xs: seq<Sample>, ts: nat)
    requires Stamped(xs, ts)
    ensures ts <= Newest(xs)
  {
    var rest := xs[..|xs| - 1];
    if xs[|xs| - 1].ts != ts {
      var i :| 0 <= i < |xs| && xs[i].ts == ts;
      assert rest[i].ts == ts;
      StampedIsNotNewer(rest, ts);
    }
  }

  /** One record leaves the stamps apart and moves the newest one as logged. */
  lemma {:induction false} IngestApart(s: State, rec: Record, nowHour: int, r: Retention, id: WindowId)
    requires Apart(Series(s, id)) && (Series(s, id) != [] ==> id.key in s.labels)
    ensures var t := Ingest(s, rec, nowHour, r);
            && Apart(Series(t, id)) && (Series(t, id) != [] ==> id.key in t.labels)
            && Newest(Series(t, id)) == Later(Newest(Series(s, id)), if rec.SampleRecord? && rec.id == id then rec.sample.ts else 0)
  {
    hide MergeHour;
    if rec.HourRecord? {
      MergeHourFrame(s, rec.key, rec.hour, rec.value, nowHour, r);
    } else if rec.SampleRecord? && rec.id == id {
      NewestSeries(Series(s, id), rec.sample);
      if Stamped(Series(s, id), rec.sample.ts) {
        StampedIsNotNewer(Series(s, id), rec.sample.ts);
      }
    }
  }

  /** Any file, well ordered or not. */
  lemma {:induction false} ReplayApart(file: seq<Record>, nowHour: int, r: Retention, id: WindowId)
    ensures var s := Replay(EMPTY, file, nowHour, r);
            && Apart(Series(s, id)) && (Series(s, id) != [] ==> id.key in s.labels)
            && Newest(Series(s, id)) == Newest(SamplesIn(file, id))
  {
    hide Ingest, Apart;
    if file == [] {
      assert Apart(Series(EMPTY, id)) by {
        NothingApart(id);
      }
    } else {
      var rest, rec := file[..|file| - 1], file[|file| - 1];
      ReplayApart(rest, nowHour, r, id);
      IngestApart(Replay(EMPTY, rest, nowHour, r), rec, nowHour, r, id);
      if rec.SampleRecord? && rec.id == id {
        NewestSeries(SamplesIn(rest, id), rec.sample);
      } else {
        assert SamplesIn(rest, id) + [] == SamplesIn(rest, id);
      }
    }
  }

  lemma {:induction false} NothingApart(id: WindowId)
    ensures Apart(Series(EMPTY, id))
  {
  }

  /** The window of a loaded, swept store. */
  lemma {:induction false} LoadedWindow(file: seq<Record>, nowHour: int, r: Retention, id: WindowId)
    ensures var s := TrimRetention(Replay(EMPTY, file, nowHour, r), nowHour, r);
            && Apart(Series(s, id)) && Retained(Series(s, id), r) == Series(s, id)
            && (id in s.windows <==> Series(s, id) != []) && (Series(s, id) != [] ==> id.key in s.labels)
            && Newest(Series(s, id)) == Newest(SamplesIn(file, id))
  {
    hide Replay, Retained, SamplesIn, KeptHours, Apart, Newest;
    var s := Replay(EMPTY, file, nowHour, r);
    ReplayApart(file, nowHour, r, id);
    TrimmedWindow(s, nowHour, r, id);
    RetainedFacts(Series(s, id), r);
    EmptySeries(r);
  }

  lemma {:induction false} EmptySeries(r: Retention)
    ensures Retained([], r) == [] && Newest([]) == 0
  {
  }

  lemma {:induction false} LoadedHours(s: State, nowHour: int, r: Retention)
    ensures TrimRetention(TrimRetention(s, nowHour, r), nowHour, r).hours == TrimRetention(s, nowHour, r).hours
  {
    hide Retained;
    var t := TrimRetention(s, nowHour, r);
    forall k | k in t.hours
      ensures KeptHours(t.hours[k], nowHour, r) == t.hours[k]
    {
      assert t.hours[k] == KeptHours(s.hours[k], nowHour, r);
    }
  }

  /** The time a loaded store holds for a key is that of its newest sample, which
      the sweep never drops. */
  lemma {:induction false} LoadedTime(file: seq<Record>, nowHour: int, r: Retention, k: string)
    ensures var s := TrimRetention(Replay(EMPTY, file, nowHour, r), nowHour, r);
            IsNewest(s, k, LastOf(s, k)) && (k in s.lastOK <==> LastOf(s, k) > 0)
  {
    hide Replay, Retained, SamplesIn, KeptHours, Apart, Newest, NewestIn, Series;
    var s := TrimRetention(Replay(EMPTY, file, nowHour, r), nowHour, r);
    ReplayedTime(file, nowHour, r, k);
    assert LastOf(s, k) == NewestIn(file, k);
    forall id: WindowId | id.key == k
      ensures Newest(Series(s, id)) <= NewestIn(file, k)
    {
      LoadedWindow(file, nowHour, r, id);
      NewestBounds(file, id);
    }
    if NewestIn(file, k) > 0 {
      var id := NewestAttained(file, k);
      LoadedWindow(file, nowHour, r, id);
      assert Newest(Series(s, id)) == NewestIn(file, k);
    }
  }

  lemma {:induction false} NewestIsOne(s: State, key: string, t: nat, u: nat)
    requires IsNewest(s, key, t) && IsNewest(s, key, u)
    ensures t == u
  {
    hide Newest, Series;
  }

  /** Whatever a load has read, the file it is compacted to restores to the very
      store that the load produced. */
  lemma {:induction false} CompactedLoadReadsBack(file: seq<Record>, log: seq<Record>, nowHour: int, r: Retention)
    requires Lists(log, TrimRetention(Replay(EMPTY, file, nowHour, r), nowHour, r))
    ensures TrimRetention(Replay(EMPTY, log, nowHour, r), nowHour, r) == TrimRetention(Replay(EMPTY, file, nowHour, r), nowHour, r)
  {
    var s, t := TrimRetention(Replay(EMPTY, file, nowHour, r), nowHour, r), TrimRetention(Replay(EMPTY, log, nowHour, r), nowHour, r);
    ReplayQueuesNothing(file, nowHour, r);
    ReplayQueuesNothing(log, nowHour, r);
    assert s.dirty == t.dirty == [];
    LoadedHours(Replay(EMPTY, file, nowHour, r), nowHour, r);
    hide Replay, Retained, KeptHours, Apart, Lists, IsNewest, HasSamples;
    forall id
      ensures Apart(Series(s, id))
    {
      LoadedWindow(file, nowHour, r, id);
    }
    ListingReadsBack(s, log, nowHour, r);
    SweptWindows(file, nowHour, r);
    forall k: string
      ensures (k in t.labels <==> k in s.labels) && (k in t.labels ==> t.labels[k] == s.labels[k])
      ensures (k in t.lastOK <==> k in s.lastOK) && (k in t.lastOK ==> t.lastOK[k] == s.lastOK[k])
    {
      SampledIsLabelled(file, nowHour, r, k);
      assert LabelHeld(t, k) == LabelHeld(s, k);
      LoadedTime(file, nowHour, r, k);
      LoadedTime(log, nowHour, r, k);
      NewestIsOne(s, k, LastOf(t, k), LastOf(s, k));
    }
    hide TrimRetention;
    assert t.labels == s.labels && t.lastOK == s.lastOK;
  }

  lemma {:induction false} SampledIsLabelled(file: seq<Record>, nowHour: int, r: Retention, k: string)
    ensures var s := TrimRetention(Replay(EMPTY, file, nowHour, r), nowHour, r);
            HasSamples(s, k) ==> LabelHeld(s, k).Some?
  {
    hide Replay, TrimRetention, Series;
    var s := TrimRetention(Replay(EMPTY, file, nowHour, r), nowHour, r);
    if HasSamples(s, k) {
      var id: WindowId :| id.key == k && Series(s, id) != [];
      LoadedWindow(file, nowHour, r, id);
    }
  }

  /** Sweeping a loaded store a second time drops no window. */
  lemma {:induction false} SweptWindows(file: seq<Record>, nowHour: int, r: Retention)
    ensures var s := TrimRetention(Replay(EMPTY, file, nowHour, r), nowHour, r);
            TrimRetention(s, nowHour, r).windows == s.windows
  {
    hide Replay, Retained, KeptHours, Apart, Newest;
    var s := TrimRetention(Replay(EMPTY, file, nowHour, r), nowHour, r);
    forall id
      ensures id in TrimRetention(s, nowHour, r).windows <==> id in s.windows
      ensures id in s.windows ==> TrimRetention(s, nowHour, r).windows[id] == s.windows[id]
    {
      LoadedWindow(file, nowHour, r, id);
      TrimmedWindow(s, nowHour, r, id);
    }
  }
}
