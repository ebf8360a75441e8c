/** The store as the program keeps it: maps and slices changed in place, every
    method proved against the state functions of SampleStore. */
module SampleStoreObject {
  import opened Common
  import Spec = SampleStore
  import SampleReplay
  import SampleRecovery
  import SampleCompaction
  import SortedInts

  lemma {:induction false} KeptShrinks(xs: seq<Spec.Sample>, newest: nat, r: Spec.Retention)
    ensures var k := Spec.Kept(xs, newest, r);
            |k| <= |xs| && (|k| == |xs| ==> k == xs)
  {
    if xs == [] {
    } else {
      KeptShrinks(xs[..|xs| - 1], newest, r);
    }
  }

  /** Compacts a series in place, as appending to series[:0] does; returns the
      length kept. */
  method Compact(series: array<Spec.Sample>, newest: nat, r: Spec.Retention) returns (n: nat)
    modifies series
    ensures n <= series.Length && series[..n] == Spec.Kept(old(series[..]), newest, r)
  {
    n := 0;
    ghost var was := series[..];
    for i := 0 to series.Length
      invariant n <= i
      invariant series[..n] == Spec.Kept(was[..i], newest, r)
      invariant forall k :: i <= k < series.Length ==> series[k] == was[k]
    {
      var sm := series[i];
      assert sm == was[i] && was[..i + 1] == was[..i] + [sm];
      SampleReplay.KeptAppend(was[..i], sm, newest, r);
      if sm.ts as int >= newest as int - r.history as int {
        series[n] := sm;
        n := n + 1;
        assert series[..n] == series[..n - 1] + [sm];
      }
    }
    assert was[..series.Length] == was;
  }

  method Trim(series: seq<Spec.Sample>, newest: nat, r: Spec.Retention) returns (keep: seq<Spec.Sample>)
    ensures keep == Spec.Kept(series, newest, r)
  {
    var backing := new Spec.Sample[|series|](i requires 0 <= i < |series| => series[i]);
    assert backing[..] == series;
    var n := Compact(backing, newest, r);
    keep := backing[..n];
  }

  method NewestOf(series: seq<Spec.Sample>) returns (newest: nat)
    ensures newest == Spec.Newest(series)
  {
    newest := 0;
    for i := 0 to |series|
      invariant newest == Spec.Newest(series[..i])
    {
      assert series[..i + 1][..i] == series[..i];
      if series[i].ts > newest {
        newest := series[i].ts;
      }
    }
    assert series[..|series|] == series;
  }

  method HasStamp(series: seq<Spec.Sample>, ts: nat) returns (dup: bool)
    ensures dup <==> Spec.Stamped(series, ts)
  {
    dup := false;
    for i := 0 to |series|
      invariant forall j :: 0 <= j < i ==> series[j].ts != ts
    {
      if series[i].ts == ts {
        return true;
      }
    }
  }

  /** Deletes the buckets before the floor, key by key. */
  method TrimHours(vals: map<int, Spec.Hour>, nowHour: int, r: Spec.Retention) returns (kept: map<int, Spec.Hour>)
    ensures kept == Spec.KeptHours(vals, nowHour, r)
  {
    kept := vals;
    var cutoff := nowHour - r.hours - 1;
    var todo := vals.Keys;
    while todo != {}
      invariant todo <= vals.Keys
      invariant forall h :: h in kept <==> h in vals && (h in todo || h >= cutoff)
      invariant forall h :: h in kept ==> kept[h] == vals[h]
      decreases |todo|
    {
      ghost var _ := SortedInts.Pick(todo);
      var hs: int :| hs in todo;
      if hs < cutoff {
        kept := kept - {hs};
      }
      todo := todo - {hs};
    }
    assert forall h :: h in kept <==> h in Spec.KeptHours(vals, nowHour, r);
  }

  class Store {
    var windows: map<Spec.WindowId, seq<Spec.Sample>>
    var hours: map<string, map<int, Spec.Hour>>
    var lastOK: map<string, nat>
    var labels: map<string, string>
    var dirty: seq<Spec.Record>
    const retention: Spec.Retention

    ghost function State(): Spec.State
      reads this
    {
      Spec.State(windows, hours, lastOK, labels, dirty)
    }

    constructor (retention: Spec.Retention)
      ensures State() == Spec.EMPTY && this.retention == retention
    {
      windows, hours, lastOK, labels, dirty := map[], map[], map[], map[], [];
      this.retention := retention;
    }

    method AddWindow(key: string, name: string, w: Spec.Sample)
      modifies `windows, `dirty
      ensures State() == Spec.AddWindow(old(State()), Spec.WindowId(key, name), w, retention)
    {
      if w.ts == 0 {
        return;
      }
      var id := Spec.WindowId(key, name);
      var series := if id in windows then windows[id] else [];
      var n := |series|;
      if n > 0 && series[n - 1].ts == w.ts {
        return;
      }
      series := series + [w];
      series := Trim(series, w.ts, retention);
      windows := windows[id := series];
      dirty := dirty + [Spec.SampleRecord(id, w)];
    }

    /** Each observed window in plan order. */
    method AddWindows(snap: Spec.Snapshot)
      modifies `windows, `dirty
      ensures State() == Spec.AddWindows(old(State()), snap.key, Spec.Observed(snap), retention)
    {
      ghost var todo := Spec.Observed(snap);
      ghost var done := Spec.AddWindows(State(), snap.key, todo, retention);
      hide Spec.AddWindow;
      if snap.included.Some? && snap.included.value.cap > 0.0 {
        var a := snap.included.value;
        AddWindow(snap.key, Spec.INCLUDED, Spec.Sample(snap.at, a.remaining, a.cap, a.resetsAt));
        todo := todo[1..];
      }
      assert done == Spec.AddWindows(State(), snap.key, todo, retention);
      if snap.session.Some? {
        AddWindow(snap.key, Spec.SESSION, Spec.Sample(snap.at, snap.session.value.remaining, 0.0, snap.session.value.resetsAt));
        todo := todo[1..];
      }
      assert done == Spec.AddWindows(State(), snap.key, todo, retention);
      if snap.weekly.Some? {
        AddWindow(snap.key, Spec.WEEKLY, Spec.Sample(snap.at, snap.weekly.value.remaining, 0.0, snap.weekly.value.resetsAt));
        todo := todo[1..];
      }
      assert done == Spec.AddWindows(State(), snap.key, todo, retention);
      if snap.purchasedUsd >= 0.0 {
        AddWindow(snap.key, Spec.PURCHASED, Spec.Sample(snap.at, snap.purchasedUsd, 0.0, 0));
        todo := todo[1..];
      }
      assert done == Spec.AddWindows(State(), snap.key, todo, retention);
      assert todo == [];
    }

    method MergeHour(key: string, hour: int, value: Spec.Hour, nowHour: int) returns (changed: bool)
      modifies `hours
      ensures (State(), changed) == Spec.MergeHour(old(State()), key, hour, value, nowHour, retention)
    {
      if key !in hours {
        hours := hours[key := map[]];
      }
      var shape := hours[key];
      if hour in shape && !value.full {
        assert hours == old(hours)[key := shape];
        return false;
      }
      if hour in shape && shape[hour].full == value.full && shape[hour].usd == value.usd {
        assert hours == old(hours)[key := shape];
        return false;
      }
      shape := shape[hour := value];
      shape := TrimHours(shape, nowHour, retention);
      hours := hours[key := shape];
      assert hours == old(hours)[key := shape];
      return true;
    }

    method MergeBuckets(key: string, buckets: seq<Spec.Bucket>, nowHour: int)
      modifies `hours, `dirty
      ensures State() == Spec.MergeBuckets(old(State()), key, buckets, nowHour, retention)
    {
      hide Spec.MergeHour;
      for i := 0 to |buckets|
        invariant Spec.MergeBuckets(State(), key, buckets[i..], nowHour, retention)
                  == Spec.MergeBuckets(old(State()), key, buckets, nowHour, retention)
        invariant windows == old(windows) && lastOK == old(lastOK) && labels == old(labels)
      {
        var b := buckets[i];
        assert buckets[i..][0] == b && buckets[i..][1..] == buckets[i + 1..];
        if b.hour.Some? {
          var value := Spec.Hour(b.usd, !b.partial);
          var changed := MergeHour(key, b.hour.value, value, nowHour);
          if changed {
            dirty := dirty + [Spec.HourRecord(key, b.hour.value, value)];
          }
        }
      }
    }

    /** Folds one observation in; an instant not after the last one is refused. */
    method Apply(snap: Spec.Snapshot, nowHour: int)
      modifies this
      ensures State() == Spec.Apply(old(State()), snap, nowHour, retention)
    {
      hide Spec.AddWindows, Spec.MergeBuckets, Spec.Observed;
      if snap.at == 0 {
        return;
      }
      if snap.key in lastOK && snap.at <= lastOK[snap.key] {
        return;
      }
      lastOK := lastOK[snap.key := snap.at];
      if snap.label_ != "" {
        if (if snap.key in labels then labels[snap.key] else "") != snap.label_ {
          labels := labels[snap.key := snap.label_];
          dirty := dirty + [Spec.LabelRecord(snap.key, snap.label_)];
        }
      }
      AddWindows(snap);
      MergeBuckets(snap.key, snap.hours, nowHour);
    }

    /** Folds one persisted record in, without retention work. */
    method IngestRecord(rec: Spec.Record, nowHour: int)
      modifies this
      ensures State() == Spec.Ingest(old(State()), rec, nowHour, retention)
    {
      hide Spec.MergeHour, Spec.Stamped;
      match rec {
        case SampleRecord(id, w) =>
          var series := if id in windows then windows[id] else [];
          var dup := HasStamp(series, w.ts);
          if !dup {
            series := series + [w];
          }
          windows := windows[id := series];
          if w.ts > (if id.key in lastOK then lastOK[id.key] else 0) {
            lastOK := lastOK[id.key := w.ts];
          }
          if id.key !in labels {
            labels := labels[id.key := Spec.DEFAULT_LABEL];
          }
        case HourRecord(key, hour, value) =>
          var _ := MergeHour(key, hour, value, nowHour);
        case LabelRecord(key, name) =>
          labels := labels[key := name];
      }
    }

    /** Streams a whole log in. */
    method Load(log: seq<Spec.Record>, nowHour: int)
      modifies this
      ensures State() == Spec.Replay(old(State()), log, nowHour, retention)
    {
      hide Spec.Ingest;
      for i := 0 to |log|
        invariant State() == Spec.Replay(old(State()), log[..i], nowHour, retention)
      {
        assert log[..i + 1][..i] == log[..i];
        IngestRecord(log[i], nowHour);
      }
      assert log[..|log|] == log;
    }

    method TrimWindows()
      modifies `windows
      ensures windows == map id | id in old(windows) && Spec.Retained(old(windows)[id], retention) != []
                             :: Spec.Retained(old(windows)[id], retention)
    {
      hide Spec.Kept, Spec.Newest;
      ghost var was := windows;
      var todo := windows.Keys;
      while todo != {}
        invariant todo <= was.Keys
        invariant forall id :: id in windows <==> id in was && (id in todo || Spec.Retained(was[id], retention) != [])
        invariant forall id :: id in windows ==> windows[id] == if id in todo then was[id] else Spec.Retained(was[id], retention)
        decreases |todo|
      {
        ghost var _ := SortedInts.Pick(todo);
        var id :| id in todo;
        var series := windows[id];
        var newest := NewestOf(series);
        if newest == 0 {
          windows := windows - {id};
        } else {
          var trimmed := Trim(series, newest, retention);
          KeptShrinks(series, newest, retention);
          if |trimmed| == 0 {
            windows := windows - {id};
          } else if |trimmed| != |series| {
            windows := windows[id := trimmed];
          }
        }
        todo := todo - {id};
      }
    }

    method TrimBuckets(nowHour: int)
      modifies `hours
      ensures hours == map k | k in old(hours) && Spec.KeptHours(old(hours)[k], nowHour, retention) != map[]
                           :: Spec.KeptHours(old(hours)[k], nowHour, retention)
    {
      hide Spec.KeptHours;
      ghost var was := hours;
      var todo := hours.Keys;
      while todo != {}
        invariant todo <= was.Keys
        invariant forall k :: k in hours <==> k in was && (k in todo || Spec.KeptHours(was[k], nowHour, retention) != map[])
        invariant forall k :: k in hours ==> hours[k] == if k in todo then was[k] else Spec.KeptHours(was[k], nowHour, retention)
        decreases |todo|
      {
        ghost var _ := SortedInts.Pick(todo);
        var k :| k in todo;
        var shape := TrimHours(hours[k], nowHour, retention);
        hours := hours[k := shape];
        if shape == map[] {
          hours := hours - {k};
        }
        todo := todo - {k};
      }
    }

    /** The retention sweep that closes a load. */
    method TrimRetention(nowHour: int)
      modifies `windows, `hours
      ensures State() == Spec.TrimRetention(old(State()), nowHour, retention)
    {
      TrimWindows();
      TrimBuckets(nowHour);
    }

    /** Hands over the queued records and clears the queue. */
    method DrainDirty() returns (out: seq<Spec.Record>)
      modifies `dirty
      ensures out == old(dirty) && State() == old(State()).(dirty := [])
    {
      out := dirty;
      dirty := [];
    }

    /** The compaction payload: every label, every sample of every window, every
        bucket, the maps walked in any order. */
    method SnapshotRecords() returns (out: seq<Spec.Record>)
      ensures SampleCompaction.Lists(out, State())
    {
      hide SampleReplay.Held;
      out := ListLabels();
      var samples := ListWindows();
      var buckets := ListHours();
      ListedApart(State(), out, samples, buckets);
      out := out + samples + buckets;
    }

    method ListLabels() returns (out: seq<Spec.Record>)
      ensures forall i :: 0 <= i < |out| ==> out[i].LabelRecord?
      ensures forall k :: SampleRecovery.LabelIn(out, k) == SampleRecovery.LabelHeld(State(), k)
    {
      out := [];
      var todo := labels.Keys;
      while todo != {}
        invariant todo <= labels.Keys
        invariant forall i :: 0 <= i < |out| ==> out[i].LabelRecord?
        invariant forall k :: SampleRecovery.LabelIn(out, k) == if k in todo then None else SampleRecovery.LabelHeld(State(), k)
        decreases |todo|
      {
        ghost var _ := SortedInts.Pick(todo);
        var key: string :| key in todo;
        ghost var was := out;
        out := out + [Spec.LabelRecord(key, labels[key])];
        assert out[..|out| - 1] == was;
        todo := todo - {key};
      }
    }

    method ListWindows() returns (out: seq<Spec.Record>)
      ensures forall i :: 0 <= i < |out| ==> out[i].SampleRecord?
      ensures forall id :: SampleReplay.SamplesIn(out, id) == Spec.Series(State(), id)
    {
      hide SampleReplay.SamplesIn;
      out := [];
      NoSamples(out);
      var todo := windows.Keys;
      while todo != {}
        invariant todo <= windows.Keys
        invariant forall i :: 0 <= i < |out| ==> out[i].SampleRecord?
        invariant forall id :: SampleReplay.SamplesIn(out, id) == if id in todo then [] else Spec.Series(State(), id)
        decreases |todo|
      {
        ghost var _ := SortedInts.Pick(todo);
        var id :| id in todo;
        var more := ListSeries(id, windows[id]);
        forall other
          ensures SampleReplay.SamplesIn(out + more, other) == SampleReplay.SamplesIn(out, other) + SampleReplay.SamplesIn(more, other)
        {
          SampleReplay.SamplesConcat(out, more, other);
        }
        out := out + more;
        todo := todo - {id};
      }
    }

    /** The buckets of every key, hour by hour. */
    method ListHours() returns (out: seq<Spec.Record>)
      ensures forall i :: 0 <= i < |out| ==> out[i].HourRecord?
      ensures forall k, h :: SampleReplay.HoursIn(out, k, h) == SampleCompaction.Values(SampleReplay.Held(State(), k, h))
    {
      hide SampleReplay.HoursIn;
      out := [];
      NoHours(out);
      var todo := hours.Keys;
      while todo != {}
        invariant todo <= hours.Keys
        invariant forall i :: 0 <= i < |out| ==> out[i].HourRecord?
        invariant forall k, h :: SampleReplay.HoursIn(out, k, h)
                                 == if k in todo then [] else SampleCompaction.Values(SampleReplay.Held(State(), k, h))
        decreases |todo|
      {
        ghost var _ := SortedInts.Pick(todo);
        var key: string :| key in todo;
        var more := ListBuckets(key, hours[key]);
        forall k, h
          ensures SampleReplay.HoursIn(out + more, k, h) == SampleReplay.HoursIn(out, k, h) + SampleReplay.HoursIn(more, k, h)
        {
          SampleRecovery.HoursConcat(out, more, k, h);
        }
        out := out + more;
        todo := todo - {key};
      }
    }
  }

  method ListSeries(id: Spec.WindowId, series: seq<Spec.Sample>) returns (out: seq<Spec.Record>)
    ensures forall i :: 0 <= i < |out| ==> out[i].SampleRecord?
    ensures forall other :: SampleReplay.SamplesIn(out, other) == if other == id then series else []
  {
    hide SampleReplay.SamplesIn;
    out := [];
    NoSamples(out);
    for i := 0 to |series|
      invariant forall j :: 0 <= j < |out| ==> out[j].SampleRecord?
      invariant forall other :: SampleReplay.SamplesIn(out, other) == if other == id then series[..i] else []
    {
      forall other
        ensures SampleReplay.SamplesIn(out + [Spec.SampleRecord(id, series[i])], other)
                == SampleReplay.SamplesIn(out, other) + (if other == id then [series[i]] else [])
      {
        SampleReplay.SamplesAppend(out, Spec.SampleRecord(id, series[i]), other);
      }
      out := out + [Spec.SampleRecord(id, series[i])];
      assert series[..i + 1] == series[..i] + [series[i]];
    }
    assert series[..|series|] == series;
  }

  method ListBuckets(key: string, vals: map<int, Spec.Hour>) returns (out: seq<Spec.Record>)
    ensures forall i :: 0 <= i < |out| ==> out[i].HourRecord?
    ensures forall k, h :: SampleReplay.HoursIn(out, k, h) == if k == key then SampleCompaction.Values(Spec.HourAt(vals, h)) else []
  {
    hide SampleReplay.HoursIn;
    out := [];
    NoHours(out);
    var todo := vals.Keys;
    while todo != {}
      invariant todo <= vals.Keys
      invariant forall i :: 0 <= i < |out| ==> out[i].HourRecord?
      invariant forall k, h :: SampleReplay.HoursIn(out, k, h)
                               == if k == key && h !in todo then SampleCompaction.Values(Spec.HourAt(vals, h)) else []
      decreases |todo|
    {
      ghost var _ := SortedInts.Pick(todo);
      var hs: int :| hs in todo;
      var rec := Spec.HourRecord(key, hs, vals[hs]);
      forall k, h
        ensures SampleReplay.HoursIn(out + [rec], k, h)
                == SampleReplay.HoursIn(out, k, h) + (if k == key && h == hs then [vals[hs]] else [])
      {
        SampleReplay.HoursAppend(out, rec, k, h);
      }
      out := out + [rec];
      todo := todo - {hs};
    }
  }

  lemma {:induction false} NoSamples(log: seq<Spec.Record>)
    requires forall i :: 0 <= i < |log| ==> !log[i].SampleRecord?
    ensures forall id :: SampleReplay.SamplesIn(log, id) == []
  {
    if log == [] {
      assert forall id :: SampleReplay.SamplesIn(log, id) == [];
    } else {
      NoSamples(log[..|log| - 1]);
    }
  }

  lemma {:induction false} NoHours(log: seq<Spec.Record>)
    requires forall i :: 0 <= i < |log| ==> !log[i].HourRecord?
    ensures forall k, h :: SampleReplay.HoursIn(log, k, h) == []
  {
    if log == [] {
      assert forall k, h :: SampleReplay.HoursIn(log, k, h) == [];
    } else {
      NoHours(log[..|log| - 1]);
    }
  }

  lemma {:induction false} NoLabels(log: seq<Spec.Record>)
    requires forall i :: 0 <= i < |log| ==> !log[i].LabelRecord?
    ensures forall k :: SampleRecovery.LabelIn(log, k) == None
  {
    if log == [] {
      assert forall k :: SampleRecovery.LabelIn(log, k) == None;
    } else {
      NoLabels(log[..|log| - 1]);
    }
  }

  /** Three listings, one of each kind of record, list the store together. */
  lemma {:induction false} ListedApart(s: Spec.State, names: seq<Spec.Record>, samples: seq<Spec.Record>, buckets: seq<Spec.Record>)
    requires forall i :: 0 <= i < |names| ==> names[i].LabelRecord?
    requires forall i :: 0 <= i < |samples| ==> samples[i].SampleRecord?
    requires forall i :: 0 <= i < |buckets| ==> buckets[i].HourRecord?
    requires forall k :: SampleRecovery.LabelIn(names, k) == SampleRecovery.LabelHeld(s, k)
    requires forall id :: SampleReplay.SamplesIn(samples, id) == Spec.Series(s, id)
    requires forall k, h :: SampleReplay.HoursIn(buckets, k, h) == SampleCompaction.Values(SampleReplay.Held(s, k, h))
    ensures SampleCompaction.Lists(names + samples + buckets, s)
  {
    hide SampleReplay.SamplesIn, SampleReplay.HoursIn, SampleRecovery.LabelIn, SampleReplay.Held;
    NoSamples(names);
    NoSamples(buckets);
    NoHours(names);
    NoHours(samples);
    NoLabels(samples);
    NoLabels(buckets);
    forall id
      ensures SampleReplay.SamplesIn(names + samples + buckets, id) == Spec.Series(s, id)
    {
      SampleReplay.SamplesConcat(names, samples, id);
      SampleReplay.SamplesConcat(names + samples, buckets, id);
    }
    forall k, h
      ensures SampleReplay.HoursIn(names + samples + buckets, k, h) == SampleCompaction.Values(SampleReplay.Held(s, k, h))
    {
      SampleRecovery.HoursConcat(names, samples, k, h);
      SampleRecovery.HoursConcat(names + samples, buckets, k, h);
    }
    forall k
      ensures SampleRecovery.LabelIn(names + samples + buckets, k) == SampleRecovery.LabelHeld(s, k)
    {
      SampleRecovery.LabelConcat(names, samples, k);
      SampleRecovery.LabelConcat(names + samples, buckets, k);
    }
  }
}
