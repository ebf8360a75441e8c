/** Replaying the persisted log rebuilds the live store: window series exactly,
    retained hour buckets by value; and replaying a suffix twice changes nothing. */
module SampleReplay {
  import opened Common
  import opened SampleStore

  /** One accepted or refused observation with the wall-clock hour it came at. */
  datatype Observation = Observation(snap: Snapshot, nowHour: int)

  /** The live store after a list of observations; `dirty` is the whole log. */
  function Live(obs: seq<Observation>, r: Retention): State {
    if obs == [] then EMPTY
    else
      var o := obs[|obs| - 1];
      Apply(Live(obs[..|obs| - 1], r), o.snap, o.nowHour, r)
  }

  // ---- window series ----

  /** The samples a log carries for one window. */
  function SamplesIn(log: seq<Record>, id: WindowId): seq<Sample> {
    if log == [] then []
    else
      var rec := log[|log| - 1];
      SamplesIn(log[..|log| - 1], id) + (if rec.SampleRecord? && rec.id == id then [rec.sample] else [])
  }

  lemma {:induction false} SamplesAppend(log: seq<Record>, rec: Record, id: WindowId)
    ensures SamplesIn(log + [rec], id) == SamplesIn(log, id) + (if rec.SampleRecord? && rec.id == id then [rec.sample] else [])
  {
    assert (log + [rec])[..|log|] == log;
  }

  lemma {:induction false} SamplesConcat(a: seq<Record>, b: seq<Record>, id: WindowId)
    ensures SamplesIn(a + b, id) == SamplesIn(a, id) + SamplesIn(b, id)
    decreases |b|
  {
    if b == [] {
      assert a + b == a;
    } else {
      SamplesConcat(a, b[..|b| - 1], id);
      assert (a + b)[..|a + b| - 1] == a + b[..|b| - 1];
    }
  }

  ghost predicate Rising(xs: seq<Sample>) {
    (forall i, j :: 0 <= i < j < |xs| ==> xs[i].ts < xs[j].ts) && (forall i :: 0 <= i < |xs| ==> xs[i].ts > 0)
  }

  function LastTs(xs: seq<Sample>): nat { if xs == [] then 0 else xs[|xs| - 1].ts }

  /** Trimming as one goes is trimming once at the newest sample. */
  lemma {:induction false} KeptTwice(xs: seq<Sample>, earlier: nat, later: nat, r: Retention)
    requires earlier <= later
    ensures Kept(Kept(xs, earlier, r), later, r) == Kept(xs, later, r)
  {
    if xs == [] {
    } else {
      var rest, last := xs[..|xs| - 1], xs[|xs| - 1];
      KeptTwice(rest, earlier, later, r);
      if last.ts as int >= earlier as int - r.history as int {
        KeptAppend(Kept(rest, earlier, r), last, later, r);
      } else {
        assert Kept(rest, earlier, r) + [] == Kept(rest, earlier, r);
      }
    }
  }

  lemma {:induction false} KeptAppend(xs: seq<Sample>, w: Sample, newest: nat, r: Retention)
    ensures Kept(xs + [w], newest, r) == Kept(xs, newest, r) + (if w.ts as int >= newest as int - r.history as int then [w] else [])
  {
    assert (xs + [w])[..|xs|] == xs;
  }

  lemma {:induction false} KeptLast(xs: seq<Sample>, w: Sample, r: Retention)
    requires xs != [] && xs[|xs| - 1] == w
    ensures var k := Kept(xs, w.ts, r);
            k != [] && k[|k| - 1] == w
  {
  }

  /** The live series of a window is its logged samples, trimmed once. */
  ghost predicate WindowOk(s: State, id: WindowId, r: Retention) {
    var xs := SamplesIn(s.dirty, id);
    && Rising(xs) && (id in s.windows <==> xs != [])
    && Series(s, id) == Kept(xs, LastTs(xs), r)
  }

  ghost predicate WindowsOk(s: State, r: Retention) {
    forall id :: WindowOk(s, id, r)
  }

  /** No sample of the key is newer than `at`. */
  ghost predicate Before(s: State, key: string, at: nat) {
    forall id: WindowId :: id.key == key ==> LastTs(SamplesIn(s.dirty, id)) <= at
  }

  ghost predicate KnownTimes(s: State) {
    forall id :: LastTs(SamplesIn(s.dirty, id)) <= LastOf(s, id.key)
  }

  /** A newer sample extends the series as if nothing had been trimmed before. */
  lemma {:induction false} AddWindowAt(s: State, id: WindowId, w: Sample, r: Retention)
    requires WindowOk(s, id, r) && w.ts > LastTs(SamplesIn(s.dirty, id))
    ensures AddWindow(s, id, w, r)
            == s.(windows := s.windows[id := Kept(SamplesIn(s.dirty, id) + [w], w.ts, r)], dirty := s.dirty + [SampleRecord(id, w)])
  {
    hide SamplesIn, Rising;
    var xs := SamplesIn(s.dirty, id);
    if xs != [] {
      KeptLast(xs, xs[|xs| - 1], r);
    }
    KeptAppend(xs, w, w.ts, r);
    KeptAppend(Series(s, id), w, w.ts, r);
    KeptTwice(xs, LastTs(xs), w.ts, r);
    hide Kept;
  }

  lemma {:induction false} RisingGrows(xs: seq<Sample>, w: Sample)
    requires Rising(xs) && w.ts > LastTs(xs)
    ensures Rising(xs + [w])
  {
    assert forall i :: 0 <= i < |xs| ==> xs[i].ts <= LastTs(xs);
  }

  lemma {:induction false} SameWindow(s: State, t: State, id: WindowId, r: Retention)
    requires WindowOk(s, id, r) && SamplesIn(t.dirty, id) == SamplesIn(s.dirty, id)
    requires (id in t.windows <==> id in s.windows) && Series(t, id) == Series(s, id)
    ensures WindowOk(t, id, r)
  {
    hide SamplesIn, Kept, Rising;
  }

  lemma {:induction false} AddWindowKeeps(s: State, id: WindowId, w: Sample, r: Retention)
    requires WindowsOk(s, r) && w.ts > LastTs(SamplesIn(s.dirty, id))
    ensures var t := AddWindow(s, id, w, r);
            && WindowsOk(t, r) && t.dirty == s.dirty + [SampleRecord(id, w)] && t.lastOK == s.lastOK
            && (forall other :: SamplesIn(t.dirty, other) == SamplesIn(s.dirty, other) + (if other == id then [w] else []))
  {
    hide SamplesIn, Kept, AddWindow, Rising;
    var t := AddWindow(s, id, w, r);
    assert WindowOk(s, id, r);
    AddWindowAt(s, id, w, r);
    RisingGrows(SamplesIn(s.dirty, id), w);
    forall other
      ensures SamplesIn(t.dirty, other) == SamplesIn(s.dirty, other) + (if other == id then [w] else [])
      ensures WindowOk(t, other, r)
    {
      SamplesAppend(s.dirty, SampleRecord(id, w), other);
      assert SamplesIn(s.dirty, other) + [] == SamplesIn(s.dirty, other);
      assert WindowOk(s, other, r);
      if other != id {
        SameWindow(s, t, other, r);
      }
    }
  }

  /** The names still to come are distinct and carry nothing newer than `at`. */
  ghost predicate Ready(s: State, key: string, ws: seq<(string, Sample)>, at: nat) {
    && at > 0
    && (forall i :: 0 <= i < |ws| ==> ws[i].1.ts == at && LastTs(SamplesIn(s.dirty, WindowId(key, ws[i].0))) < at)
    && (forall i, j :: 0 <= i < j < |ws| ==> ws[i].0 != ws[j].0)
  }

  lemma {:induction false} AddWindowsKeeps(s: State, key: string, ws: seq<(string, Sample)>, at: nat, r: Retention)
    requires WindowsOk(s, r) && Ready(s, key, ws, at) && Before(s, key, at)
    ensures var t := AddWindows(s, key, ws, r);
            && WindowsOk(t, r) && Before(t, key, at) && t.lastOK == s.lastOK
            && (forall id: WindowId :: id.key != key ==> SamplesIn(t.dirty, id) == SamplesIn(s.dirty, id))
    decreases |ws|
  {
    hide WindowsOk, SamplesIn, AddWindow;
    if ws == [] {
    } else {
      var id, w := WindowId(key, ws[0].0), ws[0].1;
      AddWindowKeeps(s, id, w, r);
      var t := AddWindow(s, id, w, r);
      forall other
        ensures SamplesIn(t.dirty, other) == if other == id then SamplesIn(s.dirty, id) + [w] else SamplesIn(s.dirty, other)
      {
        assert SamplesIn(s.dirty, other) + [] == SamplesIn(s.dirty, other);
      }
      AddWindowsKeeps(t, key, ws[1..], at, r);
    }
  }

  /** Records of other kinds leave every window alone. */
  lemma {:induction false} QuietRecord(s: State, t: State, rec: Record, r: Retention)
    requires WindowsOk(s, r) && !rec.SampleRecord? && t.dirty == s.dirty + [rec] && t.windows == s.windows
    ensures WindowsOk(t, r) && forall id :: SamplesIn(t.dirty, id) == SamplesIn(s.dirty, id)
  {
    hide SamplesIn, Kept;
    forall id
      ensures SamplesIn(t.dirty, id) == SamplesIn(s.dirty, id) && WindowOk(t, id, r)
    {
      SamplesAppend(s.dirty, rec, id);
      assert WindowOk(s, id, r);
      assert SamplesIn(s.dirty, id) + [] == SamplesIn(s.dirty, id);
    }
  }

  lemma {:induction false} SameWindows(s: State, t: State, r: Retention)
    requires WindowsOk(s, r) && t.dirty == s.dirty && t.windows == s.windows
    ensures WindowsOk(t, r)
  {
    forall id
      ensures WindowOk(t, id, r)
    {
      assert WindowOk(s, id, r);
    }
  }

  lemma {:induction false} MergeBucketsKeeps(s: State, key: string, buckets: seq<Bucket>, nowHour: int, r: Retention)
    requires WindowsOk(s, r)
    ensures var t := MergeBuckets(s, key, buckets, nowHour, r);
            WindowsOk(t, r) && t.lastOK == s.lastOK && forall id :: SamplesIn(t.dirty, id) == SamplesIn(s.dirty, id)
    decreases |buckets|
  {
    hide WindowsOk, SamplesIn, MergeHour;
    if buckets == [] {
    } else {
      var b := buckets[0];
      if b.hour.Some? {
        var value := Hour(b.usd, !b.partial);
        var m := MergeHour(s, key, b.hour.value, value, nowHour, r);
        MergeHourFrame(s, key, b.hour.value, value, nowHour, r);
        SameWindows(s, m.0, r);
        var t := if m.1 then m.0.(dirty := m.0.dirty + [HourRecord(key, b.hour.value, value)]) else m.0;
        if m.1 {
          QuietRecord(m.0, t, HourRecord(key, b.hour.value, value), r);
        }
        MergeBucketsKeeps(t, key, buckets[1..], nowHour, r);
      } else {
        MergeBucketsKeeps(s, key, buckets[1..], nowHour, r);
      }
    }
  }

  lemma {:induction false} MergeHourFrame(s: State, key: string, hour: int, value: Hour, nowHour: int, r: Retention)
    ensures var t := MergeHour(s, key, hour, value, nowHour, r).0;
            t == s.(hours := t.hours)
  {
  }

  lemma {:induction false} ObservedNames(snap: Snapshot)
    ensures var ws := Observed(snap);
            && (forall i :: 0 <= i < |ws| ==> ws[i].1.ts == snap.at)
            && (forall i, j :: 0 <= i < j < |ws| ==> ws[i].0 != ws[j].0)
  {
    assert INCLUDED != SESSION && INCLUDED != WEEKLY && INCLUDED != PURCHASED && SESSION != WEEKLY by {
      assert INCLUDED[0] != SESSION[0] && INCLUDED[0] != WEEKLY[0] && INCLUDED[0] != PURCHASED[0] && SESSION[0] != WEEKLY[0];
    }
    assert SESSION != PURCHASED && WEEKLY != PURCHASED by {
      assert SESSION[0] != PURCHASED[0] && WEEKLY[0] != PURCHASED[0];
    }
  }

  lemma {:induction false} ApplyKeeps(s: State, snap: Snapshot, nowHour: int, r: Retention)
    requires WindowsOk(s, r) && KnownTimes(s)
    ensures WindowsOk(Apply(s, snap, nowHour, r), r) && KnownTimes(Apply(s, snap, nowHour, r))
  {
    hide WindowsOk, SamplesIn, AddWindows, MergeBuckets, Observed;
    if !(snap.at == 0 || (snap.key in s.lastOK && snap.at <= s.lastOK[snap.key])) {
      var s0 := s.(lastOK := s.lastOK[snap.key := snap.at]);
      SameWindows(s, s0, r);
      var s1 := Relabel(s0, snap.key, snap.label_);
      if s1 != s0 {
        QuietRecord(s0, s1, LabelRecord(snap.key, snap.label_), r);
      }
      ObservedNames(snap);
      AddWindowsKeeps(s1, snap.key, Observed(snap), snap.at, r);
      MergeBucketsKeeps(AddWindows(s1, snap.key, Observed(snap), r), snap.key, snap.hours, nowHour, r);
    }
  }

  lemma {:induction false} LiveWindows(obs: seq<Observation>, r: Retention)
    ensures WindowsOk(Live(obs, r), r) && KnownTimes(Live(obs, r))
  {
    hide WindowsOk, KnownTimes, Apply;
    if obs == [] {
      assert WindowsOk(EMPTY, r) && KnownTimes(EMPTY) by {
        EmptyOk(r);
      }
    } else {
      LiveWindows(obs[..|obs| - 1], r);
      ApplyKeeps(Live(obs[..|obs| - 1], r), obs[|obs| - 1].snap, obs[|obs| - 1].nowHour, r);
    }
  }

  lemma {:induction false} EmptyOk(r: Retention)
    ensures WindowsOk(EMPTY, r) && KnownTimes(EMPTY)
  {
  }

  // ---- replaying the log ----

  /** Replayed series are the logged samples, untrimmed. */
  ghost predicate Replayed(s: State, log: seq<Record>) {
    forall id :: Series(s, id) == SamplesIn(log, id) && (id in s.windows <==> SamplesIn(log, id) != [])
  }

  /** No two samples of one instant. */
  ghost predicate Apart(xs: seq<Sample>) {
    forall i, j :: 0 <= i < j < |xs| ==> xs[i].ts != xs[j].ts
  }

  ghost predicate AllApart(log: seq<Record>) {
    forall id :: Apart(SamplesIn(log, id))
  }

  lemma {:induction false} ApartPrefix(log: seq<Record>, rec: Record)
    requires AllApart(log + [rec])
    ensures AllApart(log)
    ensures rec.SampleRecord? ==> !Stamped(SamplesIn(log, rec.id), rec.sample.ts)
  {
    hide SamplesIn;
    forall id
      ensures Apart(SamplesIn(log, id))
    {
      SamplesAppend(log, rec, id);
      var xs := SamplesIn(log + [rec], id);
      assert Apart(xs);
      assert SamplesIn(log, id) == xs[..|SamplesIn(log, id)|];
    }
    if rec.SampleRecord? {
      SamplesAppend(log, rec, rec.id);
      var xs := SamplesIn(log + [rec], rec.id);
      assert Apart(xs);
      assert xs == SamplesIn(log, rec.id) + [rec.sample];
      forall i | 0 <= i < |SamplesIn(log, rec.id)|
        ensures SamplesIn(log, rec.id)[i].ts != rec.sample.ts
      {
        assert xs[i].ts != xs[|xs| - 1].ts;
      }
    }
  }

  lemma {:induction false} IngestReplays(s: State, log: seq<Record>, rec: Record, nowHour: int, r: Retention)
    requires Replayed(s, log) && AllApart(log + [rec])
    ensures Replayed(Ingest(s, rec, nowHour, r), log + [rec])
  {
    hide SamplesIn, Stamped, MergeHour;
    ApartPrefix(log, rec);
    var t := Ingest(s, rec, nowHour, r);
    if rec.HourRecord? {
      MergeHourFrame(s, rec.key, rec.hour, rec.value, nowHour, r);
    }
    forall id
      ensures Series(t, id) == SamplesIn(log + [rec], id) && (id in t.windows <==> SamplesIn(log + [rec], id) != [])
    {
      SamplesAppend(log, rec, id);
      assert SamplesIn(log, id) + [] == SamplesIn(log, id);
    }
  }

  lemma {:induction false} ReplayIsLog(log: seq<Record>, nowHour: int, r: Retention)
    requires AllApart(log)
    ensures Replayed(Replay(EMPTY, log, nowHour, r), log)
  {
    hide Replayed, Ingest, AllApart;
    if log == [] {
      assert Replayed(EMPTY, []) by {
        NothingReplayed();
      }
    } else {
      var rest, rec := log[..|log| - 1], log[|log| - 1];
      assert log == rest + [rec];
      ApartPrefix(rest, rec);
      ReplayIsLog(rest, nowHour, r);
      IngestReplays(Replay(EMPTY, rest, nowHour, r), rest, rec, nowHour, r);
    }
  }

  lemma {:induction false} NothingReplayed()
    ensures Replayed(EMPTY, [])
  {
  }

  lemma {:induction false} NewestIsLast(xs: seq<Sample>)
    requires Rising(xs)
    ensures Newest(xs) == LastTs(xs)
  {
    if xs == [] {
    } else {
      NewestIsLast(xs[..|xs| - 1]);
    }
  }

  /** For every run of the live store: replaying its whole log and trimming once
      gives exactly the live window series. */
  lemma {:induction false} ReplayRebuildsWindows(obs: seq<Observation>, nowHour: int, r: Retention)
    ensures var live := Live(obs, r);
            TrimRetention(Replay(EMPTY, live.dirty, nowHour, r), nowHour, r).windows == live.windows
  {
    hide Live, Replay, Kept, SamplesIn;
    LiveWindows(obs, r);
    var live := Live(obs, r);
    assert AllApart(live.dirty) by {
      forall id
        ensures Apart(SamplesIn(live.dirty, id))
      {
        assert WindowOk(live, id, r);
        assert Rising(SamplesIn(live.dirty, id));
      }
    }
    ReplayIsLog(live.dirty, nowHour, r);
    var s := Replay(EMPTY, live.dirty, nowHour, r);
    var t := TrimRetention(s, nowHour, r);
    forall id
      ensures id in t.windows <==> id in live.windows
      ensures id in t.windows ==> t.windows[id] == live.windows[id]
    {
      RebuiltWindow(s, live, id, r);
    }
  }

  lemma {:induction false} RebuiltWindow(s: State, live: State, id: WindowId, r: Retention)
    requires Replayed(s, live.dirty) && WindowsOk(live, r)
    ensures id in s.windows <==> id in live.windows
    ensures id in live.windows ==> Retained(s.windows[id], r) == live.windows[id] != []
  {
    hide SamplesIn;
    assert WindowOk(live, id, r);
    var xs := SamplesIn(live.dirty, id);
    assert Series(s, id) == xs;
    if xs != [] {
      NewestIsLast(xs);
      KeptLast(xs, xs[|xs| - 1], r);
    }
    hide Kept;
  }

  // ---- hour buckets ----

  function MergeOne(prev: Option<Hour>, value: Hour): Option<Hour> {
    if Merges(prev, value) then Some(value) else prev
  }

  function Merged(values: seq<Hour>): Option<Hour> {
    if values == [] then None else MergeOne(Merged(values[..|values| - 1]), values[|values| - 1])
  }

  /** The last full value. */
  function LastFull(values: seq<Hour>): Option<Hour> {
    if values == [] then None
    else if values[|values| - 1].full then Some(values[|values| - 1]) else LastFull(values[..|values| - 1])
  }

  /** Merging keeps the last full value, or else the first partial one. */
  lemma {:induction false} MergedIsBest(values: seq<Hour>)
    ensures Merged(values) == if LastFull(values).Some? then LastFull(values) else if values != [] then Some(values[0]) else None
  {
    if values == [] {
    } else {
      MergedIsBest(values[..|values| - 1]);
    }
  }

  /** The values a log carries for one hour. */
  function HoursIn(log: seq<Record>, key: string, hour: int): seq<Hour> {
    if log == [] then []
    else
      var rec := log[|log| - 1];
      HoursIn(log[..|log| - 1], key, hour) + (if rec.HourRecord? && rec.key == key && rec.hour == hour then [rec.value] else [])
  }

  lemma {:induction false} HoursAppend(log: seq<Record>, rec: Record, key: string, hour: int)
    ensures HoursIn(log + [rec], key, hour)
            == HoursIn(log, key, hour) + (if rec.HourRecord? && rec.key == key && rec.hour == hour then [rec.value] else [])
  {
    assert (log + [rec])[..|log|] == log;
  }

  lemma {:induction false} MergedAppend(values: seq<Hour>, value: Hour)
    ensures Merged(values + [value]) == MergeOne(Merged(values), value)
  {
    assert (values + [value])[..|values|] == values;
  }

  /** The current value of an hour. */
  function Held(s: State, key: string, hour: int): Option<Hour> { HourAt(Buckets(s, key), hour) }

  /** One record moves only its own hour, and drops none that is retained. */
  lemma {:induction false} MergeHourEffect(s: State, key: string, hour: int, value: Hour, nowHour: int, r: Retention, k: string, h: int)
    requires h >= nowHour - r.hours - 1
    ensures var m := MergeHour(s, key, hour, value, nowHour, r);
            && Held(m.0, k, h) == (if k == key && h == hour then MergeOne(Held(s, k, h), value) else Held(s, k, h))
            && (m.1 <==> Merges(Held(s, key, hour), value))
  {
  }

  /** A replayed, retained hour holds the last full value of the log, or else its
      first partial one. */
  lemma {:induction false} ReplayedHour(log: seq<Record>, nowHour: int, r: Retention, key: string, hour: int)
    requires hour >= nowHour - r.hours - 1
    ensures Held(Replay(EMPTY, log, nowHour, r), key, hour) == Merged(HoursIn(log, key, hour))
  {
    hide MergeHour, Held, Merged, HoursIn;
    if log == [] {
      assert Held(EMPTY, key, hour) == Merged(HoursIn([], key, hour)) by {
        NothingHeld(key, hour);
      }
    } else {
      var rest, rec := log[..|log| - 1], log[|log| - 1];
      assert log == rest + [rec];
      ReplayedHour(rest, nowHour, r, key, hour);
      var s := Replay(EMPTY, rest, nowHour, r);
      HoursAppend(rest, rec, key, hour);
      assert HoursIn(rest, key, hour) + [] == HoursIn(rest, key, hour);
      if rec.HourRecord? {
        MergeHourEffect(s, rec.key, rec.hour, rec.value, nowHour, r, key, hour);
        MergedAppend(HoursIn(rest, key, hour), rec.value);
      } else {
        SameHours(s, Ingest(s, rec, nowHour, r), key, hour);
      }
    }
  }

  lemma {:induction false} NothingHeld(key: string, hour: int)
    ensures Held(EMPTY, key, hour) == Merged(HoursIn([], key, hour))
  {
  }

  lemma {:induction false} SameHours(s: State, t: State, key: string, hour: int)
    requires s.hours == t.hours
    ensures Held(t, key, hour) == Held(s, key, hour)
  {
  }
}
