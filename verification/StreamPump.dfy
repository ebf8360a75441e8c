/** The loop that moves a stream from the host's upstream to its downstream
    (internal/plugin/executor.go, pumpStream), over any converter. Host answers
    come from a script; the result is the trace of calls made to the host. */
module StreamPump {
  import opened Common

  /** One StreamRead, and the timer cause observed after it ("" for none). */
  datatype Read = Read(payload: string, readError: string, closed: bool, failed: Option<string>, cause: string)

  datatype Snapshot = Snapshot(progress: nat, finishSeen: bool)

  datatype Fed<S> = Fed(state: S, events: seq<string>, done: bool, error: Option<string>)

  /** A stream converter as the pump sees it. */
  datatype Converter<!S> = Converter(feed: (S, string) -> Fed<S>, snapshot: S -> Snapshot,
                                     finalize: S -> Result<seq<string>, string>, flush: S -> Result<seq<string>, string>)

  datatype Phase = FirstData | Idle | FinishGrace

  datatype HostCall =
    | ReadCall
    | FeedCall(bytes: nat)
    | EmitCall(payload: string)
    | ArmCall(phase: Phase)
    | CloseUpstream
    | CloseDownstream(errorLabel: string)
    | LogFinished(cause: string)
    | StopTimers

  /** How a run ends: by an error that closes both streams at once, or by the
      deferred close without a label. */
  datatype Ending = Failed(errorLabel: string, cause: string) | Ended(cause: string)

  function Tail(e: Ending): seq<HostCall> {
    match e
    case Failed(errorLabel, cause) => [CloseUpstream, CloseDownstream(errorLabel), LogFinished(cause), StopTimers]
    case Ended(cause) => [LogFinished(cause), StopTimers, CloseUpstream, CloseDownstream("")]
  }

  predicate Working(c: HostCall) { c.ReadCall? || c.FeedCall? || c.EmitCall? || c.ArmCall? }

  ghost predicate AllWorking(calls: seq<HostCall>) {
    forall i :: 0 <= i < |calls| ==> Working(calls[i])
  }

  function Emitted(calls: seq<HostCall>): seq<string> {
    if calls == [] then []
    else
      var c := calls[|calls| - 1];
      Emitted(calls[..|calls| - 1]) + (if c.EmitCall? then [c.payload] else [])
  }

  function FedBytes(calls: seq<HostCall>): nat {
    if calls == [] then 0
    else
      var c := calls[|calls| - 1];
      FedBytes(calls[..|calls| - 1]) + (if c.FeedCall? then c.bytes else 0)
  }

  function Reads(calls: seq<HostCall>): nat {
    if calls == [] then 0 else Reads(calls[..|calls| - 1]) + (if calls[|calls| - 1].ReadCall? then 1 else 0)
  }

  /** The phase timers armed, in order. */
  function Armed(calls: seq<HostCall>): seq<Phase> {
    if calls == [] then []
    else
      var c := calls[|calls| - 1];
      Armed(calls[..|calls| - 1]) + (if c.ArmCall? then [c.phase] else [])
  }

  lemma {:induction false} Appended(calls: seq<HostCall>, c: HostCall)
    ensures Emitted(calls + [c]) == Emitted(calls) + (if c.EmitCall? then [c.payload] else [])
    ensures FedBytes(calls + [c]) == FedBytes(calls) + (if c.FeedCall? then c.bytes else 0)
    ensures Reads(calls + [c]) == Reads(calls) + (if c.ReadCall? then 1 else 0)
    ensures Armed(calls + [c]) == Armed(calls) + (if c.ArmCall? then [c.phase] else [])
    ensures AllWorking(calls) && Working(c) ==> AllWorking(calls + [c])
  {
    assert (calls + [c])[..|calls|] == calls;
  }

  /** Feeding payloads one after another, without a pump. */
  function FeedAll<S>(conv: Converter<S>, start: S, payloads: seq<string>): Fed<S> {
    if payloads == [] then Fed(start, [], false, None)
    else
      var before := FeedAll(conv, start, payloads[..|payloads| - 1]);
      var now := conv.feed(before.state, payloads[|payloads| - 1]);
      Fed(now.state, before.events + now.events, now.done, now.error)
  }

  /** What a run that ended without a label had seen, and what it owes downstream. */
  ghost predicate Concluded<S>(conv: Converter<S>, f: Fed<S>, cause: string, owed: seq<string>) {
    && f.error.None?
    && match cause
       case "finish_grace" => !f.done && conv.finalize(f.state).Ok? && owed == f.events + conv.finalize(f.state).value
       case "terminal" => f.done && owed == f.events
       case "eof" => if f.done then owed == f.events else conv.flush(f.state).Ok? && owed == f.events + conv.flush(f.state).value
       case _ => false
  }

  function CauseError(cause: string): (text: string)
    ensures cause == "first_data" <==> text == "stream first data timeout"
    ensures cause == "idle" <==> text == "stream idle timeout"
    ensures cause == "total" <==> text == "stream total timeout"
    ensures cause == "finish_grace" <==> text == "stream terminal incomplete"
    ensures cause !in ["first_data", "idle", "total", "finish_grace"] <==> text == "stream truncated"
  {
    if cause == "first_data" then "stream first data timeout"
    else if cause == "idle" then "stream idle timeout"
    else if cause == "total" then "stream total timeout"
    else if cause == "finish_grace" then "stream terminal incomplete"
    else "stream truncated"
  }

  /** The timers a feed re-arms: idle on progress, and grace on top when it is the
      first to see the finish. */
  function Arms(before: Snapshot, after: Snapshot): seq<Phase> {
    if after.progress <= before.progress then []
    else [Idle] + (if after.finishSeen && !before.finishSeen then [FinishGrace] else [])
  }

  /** The snapshot the pump last saw progress at, and the timers armed so far. */
  datatype Watch = Watch(last: Snapshot, arms: seq<Phase>)

  function WatchOf<S>(conv: Converter<S>, start: S, fed: seq<string>): Watch {
    if fed == [] then Watch(Snapshot(0, false), [FirstData])
    else
      var w, now := WatchOf(conv, start, fed[..|fed| - 1]), conv.snapshot(FeedAll(conv, start, fed).state);
      Watch(if now.progress > w.last.progress then now else w.last, w.arms + Arms(w.last, now))
  }

  /** Feed `n` made progress. */
  predicate Progresses<S>(conv: Converter<S>, start: S, fed: seq<string>, n: nat)
    requires n < |fed|
  {
    conv.snapshot(FeedAll(conv, start, fed[..n + 1]).state).progress > WatchOf(conv, start, fed[..n]).last.progress
  }

  /** It was the first to see the finish. */
  predicate SeesFinish<S>(conv: Converter<S>, start: S, fed: seq<string>, n: nat)
    requires n < |fed|
  {
    && Progresses(conv, start, fed, n) && conv.snapshot(FeedAll(conv, start, fed[..n + 1]).state).finishSeen
    && !WatchOf(conv, start, fed[..n]).last.finishSeen
  }

  /** The feed that first saw the finish is the last one that made progress. */
  ghost predicate EndsAtFinish<S>(conv: Converter<S>, start: S, fed: seq<string>) {
    exists n: nat :: n < |fed| && SeesFinish(conv, start, fed, n)
                     && forall m: nat :: n < m < |fed| ==> !Progresses(conv, start, fed, m)
  }

  lemma {:induction false} EarlierFeed<S>(conv: Converter<S>, start: S, fed: seq<string>, payload: string, n: nat)
    requires n < |fed|
    ensures Progresses(conv, start, fed + [payload], n) <==> Progresses(conv, start, fed, n)
    ensures SeesFinish(conv, start, fed + [payload], n) <==> SeesFinish(conv, start, fed, n)
  {
    assert (fed + [payload])[..n + 1] == fed[..n + 1] && (fed + [payload])[..n] == fed[..n];
  }

  lemma {:induction false} LastFeed<S>(conv: Converter<S>, start: S, fed: seq<string>, payload: string)
    ensures var w, all := WatchOf(conv, start, fed), fed + [payload];
            var now := conv.snapshot(FeedAll(conv, start, all).state);
            && (Progresses(conv, start, all, |fed|) <==> now.progress > w.last.progress)
            && (SeesFinish(conv, start, all, |fed|) <==> now.progress > w.last.progress && now.finishSeen && !w.last.finishSeen)
            && WatchOf(conv, start, all).arms == w.arms + Arms(w.last, now)
            && WatchOf(conv, start, all).last == (if now.progress > w.last.progress then now else w.last)
  {
    var all := fed + [payload];
    assert all[..|fed|] == fed && all[..|fed| + 1] == all;
    hide FeedAll;
  }

  /** Once more: the end stays at the finish through a feed without progress, moves
      there with the feed that sees it, and leaves with any other progress. */
  lemma {:induction false} EndMoves<S>(conv: Converter<S>, start: S, fed: seq<string>, payload: string)
    ensures var all := fed + [payload];
            EndsAtFinish(conv, start, all)
            <==> SeesFinish(conv, start, all, |fed|) || (EndsAtFinish(conv, start, fed) && !Progresses(conv, start, all, |fed|))
  {
    hide Progresses, SeesFinish;
    var all := fed + [payload];
    if EndsAtFinish(conv, start, fed) && !Progresses(conv, start, all, |fed|) {
      var n: nat :| n < |fed| && SeesFinish(conv, start, fed, n) && forall m: nat :: n < m < |fed| ==> !Progresses(conv, start, fed, m);
      EarlierFeed(conv, start, fed, payload, n);
      forall m: nat | n < m < |all|
        ensures !Progresses(conv, start, all, m)
      {
        if m < |fed| {
          EarlierFeed(conv, start, fed, payload, m);
        }
      }
    }
    if EndsAtFinish(conv, start, all) && !SeesFinish(conv, start, all, |fed|) {
      var n: nat :| n < |all| && SeesFinish(conv, start, all, n) && forall m: nat :: n < m < |all| ==> !Progresses(conv, start, all, m);
      EarlierFeed(conv, start, fed, payload, n);
      forall m: nat | n < m < |fed|
        ensures !Progresses(conv, start, fed, m)
      {
        EarlierFeed(conv, start, fed, payload, m);
      }
    }
  }

  function ProgressAt<S>(conv: Converter<S>, start: S, fed: seq<string>, n: nat): nat
    requires n < |fed|
  {
    conv.snapshot(FeedAll(conv, start, fed[..n + 1]).state).progress
  }

  /** Feed `n` got further than every feed before it. */
  ghost predicate IsRecord<S>(conv: Converter<S>, start: S, fed: seq<string>, n: nat)
    requires n < |fed|
  {
    ProgressAt(conv, start, fed, n) > 0 && forall m: nat :: m < n ==> ProgressAt(conv, start, fed, m) < ProgressAt(conv, start, fed, n)
  }

  ghost function Records<S>(conv: Converter<S>, start: S, fed: seq<string>): nat {
    if fed == [] then 0
    else Records(conv, start, fed[..|fed| - 1]) + (if IsRecord(conv, start, fed, |fed| - 1) then 1 else 0)
  }

  function TimesArmed(arms: seq<Phase>, phase: Phase): nat {
    if arms == [] then 0 else TimesArmed(arms[..|arms| - 1], phase) + (if arms[|arms| - 1] == phase then 1 else 0)
  }

  lemma {:induction false} TimesAppended(arms: seq<Phase>, more: seq<Phase>, phase: Phase)
    ensures TimesArmed(arms + more, phase) == TimesArmed(arms, phase) + TimesArmed(more, phase)
  {
    if more == [] {
      assert arms + more == arms;
    } else {
      var shorter, last := more[..|more| - 1], more[|more| - 1];
      TimesAppended(arms, shorter, phase);
      assert (arms + more)[..|arms + more| - 1] == arms + shorter && (arms + more)[|arms + more| - 1] == last;
    }
  }

  lemma {:induction false} ArmsOnProgress(before: Snapshot, after: Snapshot)
    ensures TimesArmed(Arms(before, after), Idle) == (if after.progress > before.progress then 1 else 0)
    ensures TimesArmed(Arms(before, after), FirstData) == 0
  {
    TimesAppended([Idle], [FinishGrace], Idle);
    TimesAppended([Idle], [FinishGrace], FirstData);
    assert [Idle] + [] == [Idle];
  }

  /** The idle timer is armed once for every feed that got further than all before
      it, and the first-data timer once; the pump compares with the furthest
      progress so far. */
  lemma {:induction false} IdleForEveryRecord<S>(conv: Converter<S>, start: S, fed: seq<string>)
    ensures var w := WatchOf(conv, start, fed);
            && (forall n: nat :: n < |fed| ==> ProgressAt(conv, start, fed, n) <= w.last.progress)
            && (w.last.progress == 0 || exists n: nat :: n < |fed| && ProgressAt(conv, start, fed, n) == w.last.progress)
            && TimesArmed(w.arms, Idle) == Records(conv, start, fed) && TimesArmed(w.arms, FirstData) == 1
  {
    hide FeedAll;
    if fed == [] {
    } else {
      var before, n := fed[..|fed| - 1], |fed| - 1;
      IdleForEveryRecord(conv, start, before);
      assert fed[..n + 1] == fed;
      forall m: nat | m < n
        ensures ProgressAt(conv, start, fed, m) == ProgressAt(conv, start, before, m)
      {
        assert before[..m + 1] == fed[..m + 1];
      }
      var w, now := WatchOf(conv, start, before), conv.snapshot(FeedAll(conv, start, fed).state);
      TimesAppended(w.arms, Arms(w.last, now), Idle);
      TimesAppended(w.arms, Arms(w.last, now), FirstData);
      ArmsOnProgress(w.last, now);
      hide TimesArmed, Arms;
      if now.progress > w.last.progress {
        assert IsRecord(conv, start, fed, n);
      } else if w.last.progress > 0 {
        var m: nat :| m < n && ProgressAt(conv, start, before, m) == w.last.progress;
        assert !IsRecord(conv, start, fed, n);
      }
    }
  }

  predicate GraceIsLast(arms: seq<Phase>) { arms != [] && arms[|arms| - 1].FinishGrace? }

  /** In every run the grace timer is the last one armed if and only if no feed made
      progress after the one that first saw the finish: any later progress puts the
      idle timer back. */
  lemma {:induction false} GraceOnlyAtFirstFinish<S>(conv: Converter<S>, start: S, fed: seq<string>)
    ensures GraceIsLast(WatchOf(conv, start, fed).arms) <==> EndsAtFinish(conv, start, fed)
  {
    if fed == [] {
    } else {
      var shorter, payload := fed[..|fed| - 1], fed[|fed| - 1];
      assert shorter + [payload] == fed;
      GraceOnlyAtFirstFinish(conv, start, shorter);
      LastFeed(conv, start, shorter, payload);
      EndMoves(conv, start, shorter, payload);
      hide WatchOf, EndsAtFinish, Progresses, SeesFinish, FeedAll;
    }
  }

  // ---- what a run may do ----

  /** What a run is given: its converter, the host's answers to its reads, the
      emits the host refuses (by the number of calls made), the redaction and
      the byte limit. */
  datatype Job<!S> = Job(conv: Converter<S>, start: S, script: seq<Read>, refuse: nat -> bool, redact: string -> string, maxBytes: nat)

  function Payloads(answers: seq<Read>): seq<string> {
    if answers == [] then [] else Payloads(answers[..|answers| - 1]) + [answers[|answers| - 1].payload]
  }

  function Bytes(answers: seq<Read>): nat {
    if answers == [] then 0 else Bytes(answers[..|answers| - 1]) + |answers[|answers| - 1].payload|
  }

  /** The converter fed the first `n` reads. */
  function After<S>(job: Job<S>, n: nat): Fed<S>
    requires n <= |job.script|
  {
    FeedAll(job.conv, job.start, Payloads(job.script[..n]))
  }

  function Watched<S>(job: Job<S>, n: nat): Watch
    requires n <= |job.script|
  {
    WatchOf(job.conv, job.start, Payloads(job.script[..n]))
  }

  /** Read `n` answers with a payload that may be fed. */
  predicate Feeds<S>(job: Job<S>, n: nat)
    requires n < |job.script|
  {
    var read := job.script[n];
    read.cause == "" && read.failed.None? && read.readError == "" && Bytes(job.script[..n + 1]) <= job.maxBytes
  }

  /** Read `n` is fed and leaves the run going. */
  predicate GoesOn<S>(job: Job<S>, n: nat)
    requires n < |job.script|
  {
    Feeds(job, n) && After(job, n + 1).error.None? && !After(job, n + 1).done && !job.script[n].closed
  }

  /** The host refused the last call, which is an emit. */
  predicate Refused<S>(job: Job<S>, work: seq<HostCall>) {
    work != [] && work[|work| - 1].EmitCall? && job.refuse(|work|)
  }

  /** The host refused none of these calls. */
  ghost predicate Unrefused<S>(job: Job<S>, work: seq<HostCall>) {
    forall i :: 0 <= i < |work| && work[i].EmitCall? ==> !job.refuse(i + 1)
  }

  /** What was said is through, up to an emit the host refused. */
  ghost predicate Sends<S>(job: Job<S>, work: seq<HostCall>, said: seq<string>) {
    && (Refused(job, work) ==> Unrefused(job, work[..|work| - 1]) && Emitted(work) <= said)
    && (!Refused(job, work) ==> Unrefused(job, work) && Emitted(work) == said)
  }

  /** With `said` through, the run ended with what the converter gave at its end:
      an error, a refused emit, or all of it sent. */
  ghost predicate EndsWith<S>(job: Job<S>, said: seq<string>, final: Result<seq<string>, string>, failCause: string, endCause: string,
                              work: seq<HostCall>, ending: Ending) {
    match final
    case Err(e) =>
      ending == Failed(job.redact(e), failCause) && !Refused(job, work) && Sends(job, work, said)
    case Ok(events) =>
      && ending == (if Refused(job, work) then Failed(job.redact("emit failed"), "emit_error") else Ended(endCause))
      && Sends(job, work, said + events)
  }

  /** The run ended at read `n`, before feeding it: at a cause, a failed read, an
      upstream error or the byte limit, in this order. */
  ghost predicate EndsAtRead<S>(job: Job<S>, n: nat, work: seq<HostCall>, ending: Ending)
    requires n < |job.script|
  {
    var read, f := job.script[n], After(job, n);
    if read.cause == "finish_grace" then
      EndsWith(job, f.events, job.conv.finalize(f.state), "terminal_error", "finish_grace", work, ending)
    else
      && !Refused(job, work) && Sends(job, work, f.events)
      && if read.cause != "" then ending == Failed(CauseError(read.cause), read.cause)
         else if read.failed.Some? then ending == Failed(job.redact(read.failed.value), "read_error")
         else if read.readError != "" then ending == Failed(job.redact(read.readError), "upstream_error")
         else Bytes(job.script[..n + 1]) > job.maxBytes && ending == Failed(job.redact("stream exceeded max-response-bytes"), "max_bytes")
  }

  /** The run ended with the feed of read `n`: at an error of the converter, whose
      events are dropped, a refused emit, the end the converter saw, or the end of
      the upstream, where the converter is flushed. */
  ghost predicate EndsAtFeed<S>(job: Job<S>, n: nat, work: seq<HostCall>, ending: Ending)
    requires n < |job.script|
  {
    var read, f := job.script[n], After(job, n + 1);
    && Feeds(job, n)
    && if f.error.Some? then
         ending == Failed(job.redact(f.error.value), "terminal_error") && !Refused(job, work) && Sends(job, work, After(job, n).events)
       else if f.done then
         EndsWith(job, f.events, Ok([]), "truncated", if read.closed then "eof" else "terminal", work, ending)
       else if Refused(job, work) && Emitted(work) <= f.events then
         ending == Failed(job.redact("emit failed"), "emit_error") && Sends(job, work, f.events)
       else
         read.closed && EndsWith(job, f.events, job.conv.flush(f.state), "truncated", "eof", work, ending)
  }

  /** Why the run ended, after `n` reads were fed: every read is asked for once,
      all before the last one left it going, and the last one ended it, or the
      script is through and the host no longer knows the stream. */
  ghost predicate Explained<S>(job: Job<S>, n: nat, work: seq<HostCall>, ending: Ending) {
    && n <= |job.script| && n <= Reads(work) <= n + 1
    && (forall m: nat :: m < n && m + 1 < Reads(work) ==> GoesOn(job, m))
    && if Reads(work) == n then n > 0 && EndsAtFeed(job, n - 1, work, ending)
       else if n < |job.script| then EndsAtRead(job, n, work, ending)
       else ending == Failed(job.redact("stream not found"), "read_error") && !Refused(job, work) && Sends(job, work, After(job, n).events)
  }

  /** A run without an error label saw the end its cause names, and all the
      converter owed was sent; every run sent a prefix of what was owed. */
  lemma {:induction false} ExplainedConcludes<S>(job: Job<S>, n: nat, work: seq<HostCall>, ending: Ending)
    requires Explained(job, n, work, ending)
    ensures ending.Ended? ==> Concluded(job.conv, After(job, n), ending.cause, Emitted(work))
  {
    hide FeedAll, Emitted, Reads, Unrefused, Payloads, Bytes, CauseError;
    if n == 0 {
      NothingYet(job);
    } else if Reads(work) == n + 1 {
      assert GoesOn(job, n - 1);
    }
    var f := After(job, n);
    assert f.events + [] == f.events;
  }

  /** Emit in order until the host refuses one. */
  method EmitAll<S>(job: Job<S>, calls: seq<HostCall>, events: seq<string>) returns (more: seq<HostCall>, ok: bool)
    requires AllWorking(calls) && Unrefused(job, calls)
    ensures calls <= more && AllWorking(more)
    ensures FedBytes(more) == FedBytes(calls) && Armed(more) == Armed(calls) && Reads(more) == Reads(calls)
    ensures ok ==> Unrefused(job, more) && Emitted(more) == Emitted(calls) + events
    ensures !ok ==> Refused(job, more) && Unrefused(job, more[..|more| - 1])
                    && |Emitted(calls)| < |Emitted(more)| && Emitted(more) <= Emitted(calls) + events
  {
    hide FedBytes, Armed, Reads, Emitted, AllWorking;
    more := calls;
    for i := 0 to |events|
      invariant calls <= more && AllWorking(more) && Unrefused(job, more)
      invariant FedBytes(more) == FedBytes(calls) && Armed(more) == Armed(calls) && Reads(more) == Reads(calls)
      invariant Emitted(more) == Emitted(calls) + events[..i]
    {
      Appended(more, EmitCall(events[i]));
      assert events[..i + 1] == events[..i] + [events[i]];
      assert (more + [EmitCall(events[i])])[..|more|] == more;
      more := more + [EmitCall(events[i])];
      if job.refuse(|more|) {
        return more, false;
      }
    }
    assert events[..|events|] == events;
    return more, true;
  }

  /** Re-arm the phase timer after progress. */
  method Rearm(calls: seq<HostCall>, last: Snapshot, now: Snapshot) returns (more: seq<HostCall>, next: Snapshot)
    requires AllWorking(calls)
    ensures calls <= more && AllWorking(more) && Armed(more) == Armed(calls) + Arms(last, now)
    ensures forall i :: |calls| <= i < |more| ==> more[i].ArmCall?
    ensures FedBytes(more) == FedBytes(calls) && Emitted(more) == Emitted(calls) && Reads(more) == Reads(calls)
    ensures next == if now.progress > last.progress then now else last
  {
    hide FedBytes, Armed, Reads, Emitted, AllWorking;
    more, next := calls, last;
    if now.progress > last.progress {
      Appended(more, ArmCall(Idle));
      more := more + [ArmCall(Idle)];
      if now.finishSeen && !last.finishSeen {
        Appended(more, ArmCall(FinishGrace));
        more := more + [ArmCall(FinishGrace)];
      }
      next := now;
    }
  }

  /** What a run has called before its deferred calls. */
  function Before(work: seq<HostCall>, e: Ending): seq<HostCall> {
    match e
    case Failed(errorLabel, cause) => work + [CloseUpstream, CloseDownstream(errorLabel), LogFinished(cause)]
    case Ended(cause) => work + [LogFinished(cause)]
  }

  lemma {:induction false} OneMore<S>(job: Job<S>, n: nat)
    requires n < |job.script|
    ensures var before, now := After(job, n), job.conv.feed(After(job, n).state, job.script[n].payload);
            After(job, n + 1) == Fed(now.state, before.events + now.events, now.done, now.error)
    ensures var w, now := Watched(job, n), job.conv.snapshot(After(job, n + 1).state);
            Watched(job, n + 1) == Watch(if now.progress > w.last.progress then now else w.last, w.arms + Arms(w.last, now))
    ensures Bytes(job.script[..n + 1]) == Bytes(job.script[..n]) + |job.script[n].payload|
  {
    hide Arms;
    var fed, payload := Payloads(job.script[..n]), job.script[n].payload;
    assert job.script[..n + 1][..n] == job.script[..n];
    assert (fed + [payload])[..|fed|] == fed;
  }

  lemma {:induction false} NothingYet<S>(job: Job<S>)
    ensures After(job, 0) == Fed(job.start, [], false, None) && Bytes(job.script[..0]) == 0
    ensures Watched(job, 0) == Watch(Snapshot(0, false), [FirstData])
  {
  }

  lemma {:induction false} Unemitted<S>(job: Job<S>, calls: seq<HostCall>, more: seq<HostCall>)
    requires Unrefused(job, calls) && calls <= more
    requires forall i :: |calls| <= i < |more| ==> !more[i].EmitCall?
    ensures Unrefused(job, more)
  {
  }

  lemma {:induction false} AllSent<S>(job: Job<S>, work: seq<HostCall>)
    requires Unrefused(job, work)
    ensures !Refused(job, work) && Sends(job, work, Emitted(work))
  {
  }

  /** Asking for a read sends nothing. */
  lemma {:induction false} Asked<S>(job: Job<S>, calls: seq<HostCall>)
    requires AllWorking(calls) && Unrefused(job, calls)
    ensures var more := calls + [ReadCall];
            && AllWorking(more) && Unrefused(job, more) && Reads(more) == Reads(calls) + 1
            && Emitted(more) == Emitted(calls) && FedBytes(more) == FedBytes(calls) && Armed(more) == Armed(calls)
  {
    Appended(calls, ReadCall);
    Unemitted(job, calls, calls + [ReadCall]);
  }

  lemma {:induction false} NothingMore<S>(job: Job<S>, said: seq<string>, cause: string, work: seq<HostCall>)
    requires Unrefused(job, work) && Emitted(work) == said
    ensures EndsWith(job, said, Ok([]), "truncated", cause, work, Ended(cause))
  {
    assert said + [] == said;
  }

  lemma {:induction false} NothingTaken<S>(job: Job<S>, said: seq<string>, cause: string, work: seq<HostCall>)
    requires Refused(job, work) && Sends(job, work, said)
    ensures Emitted(work) <= said
    ensures EndsWith(job, said, Ok([]), "truncated", cause, work, Failed(job.redact("emit failed"), "emit_error"))
  {
    assert said + [] == said;
  }

  /** One run: the calls so far and the two once-only guards. */
  class PumpRun {
    var trace: seq<HostCall>
    var closed: bool
    var logged: bool

    constructor ()
      ensures trace == [] && !closed && !logged
    {
      trace, closed, logged := [], false, false;
    }

    method CloseStreams(errorLabel: string)
      modifies `trace, `closed
      ensures closed && trace == if old(closed) then old(trace) else old(trace) + [CloseUpstream, CloseDownstream(errorLabel)]
    {
      if closed {
        return;
      }
      closed := true;
      trace := trace + [CloseUpstream, CloseDownstream(errorLabel)];
    }

    method LogDone(cause: string)
      modifies `trace, `logged
      ensures logged && trace == if old(logged) then old(trace) else old(trace) + [LogFinished(cause)]
    {
      if logged {
        return;
      }
      logged := true;
      trace := trace + [LogFinished(cause)];
    }

    method Finish(e: Ending)
      requires !closed && !logged
      modifies this
      ensures trace == Before(old(trace), e) && closed == e.Failed? && logged
    {
      match e
      case Failed(errorLabel, cause) =>
        CloseStreams(errorLabel);
        LogDone(cause);
      case Ended(cause) =>
        LogDone(cause);
    }

    /** Finalize or flush, emit what that yields, and finish. */
    method FinishWith<S>(job: Job<S>, final: Result<seq<string>, string>, failCause: string, endCause: string)
      returns (ghost work: seq<HostCall>, ghost ending: Ending)
      requires !closed && !logged && AllWorking(trace) && Unrefused(job, trace)
      modifies this
      ensures trace == Before(work, ending) && closed == ending.Failed? && logged && AllWorking(work)
      ensures FedBytes(work) == FedBytes(old(trace)) && Armed(work) == Armed(old(trace)) && Reads(work) == Reads(old(trace))
      ensures EndsWith(job, Emitted(old(trace)), final, failCause, endCause, work, ending)
      ensures Refused(job, work) ==> |Emitted(old(trace))| < |Emitted(work)|
    {
      hide AllWorking, FedBytes, Emitted, Armed, Reads, Before;
      work := trace;
      if final.Err? {
        ending := Failed(job.redact(final.error), failCause);
        Finish(Failed(job.redact(final.error), failCause));
        return;
      }
      var more, ok := EmitAll(job, trace, final.value);
      trace, work := more, more;
      var e := if ok then Ended(endCause) else Failed(job.redact("emit failed"), "emit_error");
      ending := e;
      Finish(e);
    }

    /** Feed one payload, re-arm the timers, and emit. */
    method FeedOne<S>(job: Job<S>, state: S, last: Snapshot, payload: string)
      returns (next: S, snapshot: Snapshot, done: bool, error: Option<Ending>)
      requires AllWorking(trace) && Unrefused(job, trace)
      modifies `trace
      ensures var now := job.conv.feed(state, payload);
              && next == now.state && done == now.done && AllWorking(trace)
              && FedBytes(trace) == FedBytes(old(trace)) + |payload| && Reads(trace) == Reads(old(trace))
              && Armed(trace) == Armed(old(trace)) + Arms(last, job.conv.snapshot(next))
              && snapshot == (if job.conv.snapshot(next).progress > last.progress then job.conv.snapshot(next) else last)
              && if now.error.Some? then
                   error == Some(Failed(job.redact(now.error.value), "terminal_error")) && Unrefused(job, trace)
                   && Emitted(trace) == Emitted(old(trace))
                 else if error.None? then
                   Unrefused(job, trace) && Emitted(trace) == Emitted(old(trace)) + now.events
                 else
                   && error == Some(Failed(job.redact("emit failed"), "emit_error"))
                   && Refused(job, trace) && Sends(job, trace, Emitted(old(trace)) + now.events)
    {
      hide AllWorking, FedBytes, Emitted, Armed, Arms, Reads;
      Appended(trace, FeedCall(|payload|));
      Unemitted(job, trace, trace + [FeedCall(|payload|)]);
      trace := trace + [FeedCall(|payload|)];
      var now := job.conv.feed(state, payload);
      next, done, error := now.state, now.done, None;
      var armed;
      armed, snapshot := Rearm(trace, last, job.conv.snapshot(next));
      Unemitted(job, trace, armed);
      trace := armed;
      if now.error.Some? {
        error := Some(Failed(job.redact(now.error.value), "terminal_error"));
        return;
      }
      var ok;
      trace, ok := EmitAll(job, trace, now.events);
      if !ok {
        error := Some(Failed(job.redact("emit failed"), "emit_error"));
      }
    }

    /** The calls so far asked for so many reads, fed the first `n`, emitted what
        they gave and armed the timers their progress asks for. */
    ghost predicate Underway<S>(job: Job<S>, n: nat, asked: nat, state: S, last: Snapshot, total: nat)
      reads this
    {
      && n <= |job.script| && !closed && !logged && AllWorking(trace) && Unrefused(job, trace) && Reads(trace) == asked
      && FedBytes(trace) == total == Bytes(job.script[..n]) <= job.maxBytes
      && After(job, n).state == state && After(job, n).events == Emitted(trace)
      && Watched(job, n) == Watch(last, Armed(trace))
      && forall m: nat :: m < n ==> GoesOn(job, m)
    }

    /** The run is over but for its deferred calls. */
    ghost predicate Finished<S>(job: Job<S>, n: nat, work: seq<HostCall>, ending: Ending)
      reads this
    {
      && trace == Before(work, ending) && closed == ending.Failed? && logged && AllWorking(work)
      && Explained(job, n, work, ending)
      && FedBytes(work) == Bytes(job.script[..n]) <= job.maxBytes && Armed(work) == Watched(job, n).arms
    }

    /** One pass of the read loop, from a successful read on. */
    method TakePayload<S>(job: Job<S>, n: nat, state: S, last: Snapshot, total: nat)
      returns (state': S, last': Snapshot, over: bool, ghost work: seq<HostCall>, ghost ending: Ending)
      requires Underway(job, n, n + 1, state, last, total) && n < |job.script| && Feeds(job, n)
      modifies this
      ensures if over then Finished(job, n + 1, work, ending)
              else Underway(job, n + 1, n + 1, state', last', total + |job.script[n].payload|)
    {
      hide AllWorking, FedBytes, Emitted, Armed, Arms, Reads, Before, Bytes, After, Watched, Unrefused, Sends, EndsWith;
      var read := job.script[n];
      OneMore(job, n);
      var done, error;
      state', last', done, error := FeedOne(job, state, last, read.payload);
      over, work, ending := true, trace, Ended("");
      if error.Some? {
        ending := error.value;
        if After(job, n + 1).error.Some? {
          AllSent(job, work);
        } else {
          NothingTaken(job, After(job, n + 1).events, if read.closed then "eof" else "terminal", work);
        }
        assert EndsAtFeed(job, n, work, ending);
        Finish(error.value);
      } else if done {
        ending := Ended(if read.closed then "eof" else "terminal");
        NothingMore(job, After(job, n + 1).events, ending.cause, work);
        assert EndsAtFeed(job, n, work, ending);
        Finish(Ended(if read.closed then "eof" else "terminal"));
      } else if read.closed {
        work, ending := FinishWith(job, job.conv.flush(state'), "truncated", "eof");
        assert EndsAtFeed(job, n, work, ending);
      } else {
        over := false;
      }
    }

    /** One pass of the read loop, up to the point where the payload is fed. */
    method TakeRead<S>(job: Job<S>, n: nat, state: S, last: Snapshot, total: nat)
      returns (over: bool, ghost work: seq<HostCall>, ghost ending: Ending)
      requires Underway(job, n, n, state, last, total) && n < |job.script|
      modifies this
      ensures if over then Finished(job, n, work, ending)
              else Underway(job, n, n + 1, state, last, total) && Feeds(job, n)
    {
      hide AllWorking, FedBytes, Emitted, Armed, Arms, Reads, Before, Bytes, After, Watched, Unrefused, Sends, EndsWith, CauseError;
      var read := job.script[n];
      OneMore(job, n);
      Asked(job, trace);
      trace := trace + [ReadCall];
      over, work, ending := true, trace, Ended("");
      AllSent(job, trace);
      if read.cause == "finish_grace" {
        work, ending := FinishWith(job, job.conv.finalize(state), "terminal_error", "finish_grace");
        return;
      }
      var e := Ended("");
      if read.cause != "" {
        e := Failed(CauseError(read.cause), read.cause);
      } else if read.failed.Some? {
        e := Failed(job.redact(read.failed.value), "read_error");
      } else if read.readError != "" {
        e := Failed(job.redact(read.readError), "upstream_error");
      } else if total + |read.payload| > job.maxBytes {
        e := Failed(job.redact("stream exceeded max-response-bytes"), "max_bytes");
      } else {
        over := false;
        return;
      }
      ending := e;
      Finish(e);
    }

    /** The host no longer knows the stream. */
    method Exhausted<S>(job: Job<S>, state: S, last: Snapshot, total: nat) returns (ghost work: seq<HostCall>, ghost ending: Ending)
      requires Underway(job, |job.script|, |job.script|, state, last, total)
      modifies this
      ensures Finished(job, |job.script|, work, ending)
    {
      hide AllWorking, FedBytes, Emitted, Armed, Arms, Reads, Before, Bytes, After, Watched, Unrefused, Sends, EndsWith, CauseError;
      Asked(job, trace);
      trace := trace + [ReadCall];
      AllSent(job, trace);
      work, ending := trace, Failed(job.redact("stream not found"), "read_error");
      Finish(Failed(job.redact("stream not found"), "read_error"));
    }

    /** The read loop. A script that runs dry reads as a failed read. */
    method Loop<S>(job: Job<S>) returns (ghost work: seq<HostCall>, ghost ending: Ending, fed: nat)
      requires trace == [ArmCall(FirstData)] && !closed && !logged
      modifies this
      ensures Finished(job, fed, work, ending)
    {
      var state, last := job.start, Snapshot(0, false);
      var total: nat := 0;
      NothingYet(job);
      Appended([], ArmCall(FirstData));
      assert trace == [] + [ArmCall(FirstData)];
      fed := 0;
      while fed < |job.script|
        invariant Underway(job, fed, fed, state, last, total)
      {
        hide Underway, Finished;
        var over;
        over, work, ending := TakeRead(job, fed, state, last, total);
        if over {
          return;
        }
        state, last, over, work, ending := TakePayload(job, fed, state, last, total);
        fed, total := fed + 1, total + |job.script[fed].payload|;
        if over {
          return;
        }
      }
      hide Underway, Finished;
      work, ending := Exhausted(job, state, last, total);
    }

    /** The whole function, with its deferred calls in their order. */
    method PumpStream<S>(job: Job<S>) returns (ghost work: seq<HostCall>, ghost ending: Ending, fed: nat)
      requires trace == [] && !closed && !logged
      modifies this
      ensures trace == work + Tail(ending) && AllWorking(work) && Explained(job, fed, work, ending)
      ensures FedBytes(work) == Bytes(job.script[..fed]) <= job.maxBytes && Armed(work) == Watched(job, fed).arms
    {
      hide AllWorking, FedBytes, Emitted, Armed, Watched, Bytes, Explained;
      trace := trace + [ArmCall(FirstData)];
      work, ending, fed := Loop(job);
      trace := trace + [StopTimers];
      CloseStreams("");
    }
  }

  // ---- the whole trace ----

  function Trace(work: seq<HostCall>, ending: Ending): seq<HostCall> { work + Tail(ending) }

  function Count(calls: seq<HostCall>, which: HostCall -> bool): nat {
    if calls == [] then 0 else (if which(calls[0]) then 1 else 0) + Count(calls[1..], which)
  }

  lemma {:induction false} CountConcat(a: seq<HostCall>, b: seq<HostCall>, which: HostCall -> bool)
    ensures Count(a + b, which) == Count(a, which) + Count(b, which)
  {
    if a == [] {
      assert a + b == b;
    } else {
      CountConcat(a[1..], b, which);
      assert (a + b)[1..] == a[1..] + b;
    }
  }

  lemma {:induction false} WorkingCountsNone(calls: seq<HostCall>, which: HostCall -> bool)
    requires AllWorking(calls) && forall c :: which(c) ==> !Working(c)
    ensures Count(calls, which) == 0
  {
    if calls == [] {
    } else {
      assert forall i :: 0 <= i < |calls[1..]| ==> calls[1..][i] == calls[i + 1];
      WorkingCountsNone(calls[1..], which);
    }
  }

  function IsDownstreamClose(c: HostCall): bool { c.CloseDownstream? }
  function IsUpstreamClose(c: HostCall): bool { c.CloseUpstream? }
  function IsLog(c: HostCall): bool { c.LogFinished? }

  /** Every run closes downstream once and upstream once, logs one finish record,
      stops its timers, and neither reads nor emits after the close. */
  lemma {:induction false} EveryRunClosesOnce(work: seq<HostCall>, ending: Ending)
    requires AllWorking(work)
    ensures var t := Trace(work, ending);
            && Count(t, IsDownstreamClose) == 1 && Count(t, IsUpstreamClose) == 1 && Count(t, IsLog) == 1 && StopTimers in t
            && forall i, j :: 0 <= i < j < |t| && t[i].CloseDownstream? ==> !Working(t[j])
  {
    var tail := Tail(ending);
    CountConcat(work, tail, IsDownstreamClose);
    CountConcat(work, tail, IsUpstreamClose);
    CountConcat(work, tail, IsLog);
    WorkingCountsNone(work, IsDownstreamClose);
    WorkingCountsNone(work, IsUpstreamClose);
    WorkingCountsNone(work, IsLog);
    assert |tail| == 4 && tail[1..] == [tail[1], tail[2], tail[3]] && tail[1..][1..] == [tail[2], tail[3]]
           && tail[1..][1..][1..] == [tail[3]];
    CountFour(tail, IsDownstreamClose);
    CountFour(tail, IsUpstreamClose);
    CountFour(tail, IsLog);
    var t := Trace(work, ending);
    assert t[|work| + 1] == tail[1] && t[|work| + 3] == tail[3];
    assert tail[3] == StopTimers || tail[1] == StopTimers;
    assert forall k :: 0 <= k < |work| ==> Working(t[k]);
    forall i, j | 0 <= i < j < |t| && t[i].CloseDownstream?
      ensures !Working(t[j])
    {
      assert t[j] == tail[j - |work|];
    }
  }

  lemma {:induction false} CountFour(t: seq<HostCall>, which: HostCall -> bool)
    requires |t| == 4
    ensures Count(t, which) == (if which(t[0]) then 1 else 0) + (if which(t[1]) then 1 else 0) + (if which(t[2]) then 1 else 0)
                               + (if which(t[3]) then 1 else 0)
  {
    CountStep(t, which);
    CountStep(t[1..], which);
    CountStep(t[1..][1..], which);
    CountStep(t[1..][1..][1..], which);
  }

  lemma {:induction false} CountStep(t: seq<HostCall>, which: HostCall -> bool)
    requires t != []
    ensures Count(t, which) == (if which(t[0]) then 1 else 0) + Count(t[1..], which)
    ensures |t| == 1 ==> Count(t[1..], which) == 0
  {
  }
}
