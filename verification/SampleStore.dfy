/** The predictor's sample store (internal/predictor/store.go): live observation,
    log replay, and retention. Instants are nanoseconds with 0 the zero time;
    wall-clock reads are a parameter. */
module SampleStore {
  import opened Common

  datatype WindowId = WindowId(key: string, name: string)

  datatype Sample = Sample(ts: nat, remaining: real, cap: real, resetsAt: nat)

  datatype Hour = Hour(usd: real, full: bool)

  datatype Record =
    | SampleRecord(id: WindowId, sample: Sample)
    | HourRecord(key: string, hour: int, value: Hour)
    | LabelRecord(key: string, name: string)

  /** One usage bucket of an observation; `hour` 0 stands for the zero time. */
  datatype Bucket = Bucket(hour: Option<int>, usd: real, partial: bool)

  datatype Allowance = Allowance(remaining: real, cap: real, resetsAt: nat)

  datatype Snapshot = Snapshot(key: string, label_: string, at: nat, included: Option<Allowance>, session: Option<Allowance>,
                               weekly: Option<Allowance>, purchasedUsd: real, hours: seq<Bucket>)

  datatype State = State(windows: map<WindowId, seq<Sample>>, hours: map<string, map<int, Hour>>, lastOK: map<string, nat>,
                         labels: map<string, string>, dirty: seq<Record>)

  const EMPTY := State(map[], map[], map[], map[], [])

  /** Retention: nanoseconds for samples, whole hours for buckets. */
  datatype Retention = Retention(history: nat, hours: nat)

  const INCLUDED := "included"
  const SESSION := "session"
  const WEEKLY := "weekly"
  const PURCHASED := "purchased"

  function Series(s: State, id: WindowId): seq<Sample> { if id in s.windows then s.windows[id] else [] }

  function Buckets(s: State, key: string): map<int, Hour> { if key in s.hours then s.hours[key] else map[] }

  function LabelOf(s: State, key: string): string { if key in s.labels then s.labels[key] else "" }

  function LastOf(s: State, key: string): nat { if key in s.lastOK then s.lastOK[key] else 0 }

  // ---- retention ----

  /** Samples not before the cutoff. */
  function Kept(series: seq<Sample>, newest: nat, r: Retention): seq<Sample> {
    if series == [] then []
    else
      var last := series[|series| - 1];
      Kept(series[..|series| - 1], newest, r) + (if last.ts as int >= newest as int - r.history as int then [last] else [])
  }

  function KeptHours(hours: map<int, Hour>, nowHour: int, r: Retention): map<int, Hour> {
    map h | h in hours && h >= nowHour - r.hours - 1 :: hours[h]
  }

  // ---- one bucket ----

  /** A partial value only fills a gap; a full one replaces whatever differs. */
  predicate Merges(prev: Option<Hour>, value: Hour) {
    prev.None? || (value.full && prev.value != value)
  }

  function HourAt(hours: map<int, Hour>, h: int): Option<Hour> { if h in hours then Some(hours[h]) else None }

  /** The buckets after one record, and whether it must persist. */
  function MergeHour(s: State, key: string, hour: int, value: Hour, nowHour: int, r: Retention): (State, bool) {
    var shape := Buckets(s, key);
    if !Merges(HourAt(shape, hour), value) then (s.(hours := s.hours[key := shape]), false)
    else (s.(hours := s.hours[key := KeptHours(shape[hour := value], nowHour, r)]), true)
  }

  function MergeBuckets(s: State, key: string, buckets: seq<Bucket>, nowHour: int, r: Retention): State
    decreases |buckets|
  {
    if buckets == [] then s
    else
      var b := buckets[0];
      if b.hour.None? then MergeBuckets(s, key, buckets[1..], nowHour, r)
      else
        var value := Hour(b.usd, !b.partial);
        var m := MergeHour(s, key, b.hour.value, value, nowHour, r);
        var t := if m.1 then m.0.(dirty := m.0.dirty + [HourRecord(key, b.hour.value, value)]) else m.0;
        MergeBuckets(t, key, buckets[1..], nowHour, r)
  }

  // ---- one observation ----

  function Opt(name: string, a: Option<Allowance>, at: nat): seq<(string, Sample)> {
    if a.None? then [] else [(name, Sample(at, a.value.remaining, 0.0, a.value.resetsAt))]
  }

  /** The window samples an observation carries, in order. */
  function Observed(snap: Snapshot): seq<(string, Sample)> {
    (if snap.included.Some? && snap.included.value.cap > 0.0
     then [(INCLUDED, Sample(snap.at, snap.included.value.remaining, snap.included.value.cap, snap.included.value.resetsAt))] else [])
    + Opt(SESSION, snap.session, snap.at) + Opt(WEEKLY, snap.weekly, snap.at)
    + (if snap.purchasedUsd >= 0.0 then [(PURCHASED, Sample(snap.at, snap.purchasedUsd, 0.0, 0))] else [])
  }

  function AddWindow(s: State, id: WindowId, w: Sample, r: Retention): State {
    var series := Series(s, id);
    if w.ts == 0 || (series != [] && series[|series| - 1].ts == w.ts) then s
    else s.(windows := s.windows[id := Kept(series + [w], w.ts, r)], dirty := s.dirty + [SampleRecord(id, w)])
  }

  function AddWindows(s: State, key: string, ws: seq<(string, Sample)>, r: Retention): State
    decreases |ws|
  {
    if ws == [] then s else AddWindows(AddWindow(s, WindowId(key, ws[0].0), ws[0].1, r), key, ws[1..], r)
  }

  function Relabel(s: State, key: string, name: string): State {
    if name == "" || LabelOf(s, key) == name then s
    else s.(labels := s.labels[key := name], dirty := s.dirty + [LabelRecord(key, name)])
  }

  function Apply(s: State, snap: Snapshot, nowHour: int, r: Retention): State {
    if snap.at == 0 || (snap.key in s.lastOK && snap.at <= s.lastOK[snap.key]) then s
    else
      var s1 := Relabel(s.(lastOK := s.lastOK[snap.key := snap.at]), snap.key, snap.label_);
      var s2 := AddWindows(s1, snap.key, Observed(snap), r);
      MergeBuckets(s2, snap.key, snap.hours, nowHour, r)
  }

  // ---- replay ----

  const DEFAULT_LABEL := "Ollama credential"

  predicate Stamped(series: seq<Sample>, ts: nat) { exists i :: 0 <= i < |series| && series[i].ts == ts }

  function Ingest(s: State, rec: Record, nowHour: int, r: Retention): State {
    match rec
    case SampleRecord(id, w) =>
      var series := Series(s, id);
      s.(windows := s.windows[id := if Stamped(series, w.ts) then series else series + [w]],
         lastOK := if w.ts > LastOf(s, id.key) then s.lastOK[id.key := w.ts] else s.lastOK,
         labels := if id.key in s.labels then s.labels else s.labels[id.key := DEFAULT_LABEL])
    case HourRecord(key, hour, value) => MergeHour(s, key, hour, value, nowHour, r).0
    case LabelRecord(key, name) => s.(labels := s.labels[key := name])
  }

  function Replay(s: State, log: seq<Record>, nowHour: int, r: Retention): State {
    if log == [] then s else Ingest(Replay(s, log[..|log| - 1], nowHour, r), log[|log| - 1], nowHour, r)
  }

  function Newest(series: seq<Sample>): nat {
    if series == [] then 0
    else
      var before, last := Newest(series[..|series| - 1]), series[|series| - 1].ts;
      if last > before then last else before
  }

  function Retained(series: seq<Sample>, r: Retention): seq<Sample> {
    if Newest(series) == 0 then [] else Kept(series, Newest(series), r)
  }

  function TrimRetention(s: State, nowHour: int, r: Retention): State {
    s.(windows := map id | id in s.windows && Retained(s.windows[id], r) != [] :: Retained(s.windows[id], r),
       hours := map k | k in s.hours && KeptHours(s.hours[k], nowHour, r) != map[] :: KeptHours(s.hours[k], nowHour, r))
  }
}
