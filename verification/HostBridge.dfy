/** Host callbacks under a deadline (internal/plugin/hostbridge.go) as a step
    relation over the caller, the callback goroutine and the abandon goroutine
    of every invocation, with the shared in-flight count. */
module HostBridge {
  import opened Common

  type StreamId = nat

  /** What the host callback came back with: a panic or error, or a reply that
      may name a stream the host registered. */
  datatype Reply = Failed | Replied(stream: Option<StreamId>)

  function StreamOf(r: Reply): Option<StreamId> { if r.Replied? then r.stream else None }

  datatype CallbackPc = InHost | Returned(reply: Reply) | Sent | Exited

  /** `Observed` holds a received result before settle, `LateWork` a late result
      after settle, `Finished` what the caller got: the reply, or a timeout. */
  datatype CallerPc = Waiting | InGrace | Observed(reply: Reply, late: bool) | Lapsed | LateWork(reply: Reply)
                    | Finished(got: Option<Reply>)

  datatype AbandonPc = Unborn | Receiving | Closing(reply: Reply) | Settling | Gone

  /** One invocation. `doStream` calls carry a grace window and an abandon
      function; plain calls carry neither. `outcome` and `closes` are history. */
  datatype Call = Call(doStream: bool, callback: CallbackPc, caller: CallerPc, abandon: AbandonPc, channel: Option<Reply>,
                       exited: bool, drained: bool, letGo: bool, outcome: Option<Reply>, closes: nat)

  datatype State = State(inFlight: int, calls: seq<Call>)

  const IDLE := State(0, [])

  function NewCall(doStream: bool): Call {
    Call(doStream, InHost, Waiting, Unborn, None, false, false, false, None, 0)
  }

  datatype Action =
    | CallbackReturns(reply: Reply) | CallbackSends | CallbackExits
    | CallerReceives | DeadlinePasses | GraceReceives | GracePasses | CallerSettles | CallerGivesUp | CallerClosesLate
    | AbandonReceives | AbandonCloses | AbandonSettles

  /** Release once both halves are through; under the mutex. */
  function MaybeRelease(c: Call): Call {
    if c.exited && c.drained && !c.letGo then c.(letGo := true) else c
  }

  function Settle(c: Call): Call { MaybeRelease(c.(drained := true)) }

  /** A stream_close for the stream of a reply, if it names one. */
  function Close(c: Call, reply: Reply): Call {
    if StreamOf(reply).Some? then c.(closes := c.closes + 1) else c
  }

  /** The effect of an action on its invocation; None when it is not enabled. */
  function Act(c: Call, a: Action): Option<Call> {
    match a
    case CallbackReturns(reply) =>
      if c.callback.InHost? then Some(c.(callback := Returned(reply), outcome := Some(reply))) else None
    case CallbackSends =>
      if c.callback.Returned? && c.channel.None? then Some(c.(callback := Sent, channel := Some(c.callback.reply))) else None
    case CallbackExits =>
      if c.callback.Sent? then Some(MaybeRelease(c.(callback := Exited, exited := true))) else None
    case CallerReceives =>
      if c.caller.Waiting? && c.channel.Some? then Some(c.(caller := Observed(c.channel.value, false), channel := None)) else None
    case DeadlinePasses =>
      if c.caller.Waiting? then Some(c.(caller := if c.doStream then InGrace else Lapsed)) else None
    case GraceReceives =>
      if c.caller.InGrace? && c.channel.Some? then Some(c.(caller := Observed(c.channel.value, true), channel := None)) else None
    case GracePasses =>
      if c.caller.InGrace? then Some(c.(caller := Lapsed)) else None
    case CallerSettles =>
      if c.caller.Observed? then
        var next := if c.caller.late then LateWork(c.caller.reply) else Finished(Some(c.caller.reply));
        Some(Settle(c).(caller := next))
      else None
    case CallerGivesUp =>
      if !c.caller.Lapsed? then None
      else if c.doStream then Some(c.(abandon := Receiving, caller := Finished(None)))
      else Some(Settle(c).(caller := Finished(None)))
    case CallerClosesLate =>
      if c.caller.LateWork? then Some(Close(c, c.caller.reply).(caller := Finished(None))) else None
    case AbandonReceives =>
      if c.abandon.Receiving? && c.channel.Some? then Some(c.(abandon := Closing(c.channel.value), channel := None)) else None
    case AbandonCloses =>
      if c.abandon.Closing? then Some(Close(c, c.abandon.reply).(abandon := Settling)) else None
    case AbandonSettles =>
      if c.abandon.Settling? then Some(Settle(c).(abandon := Gone)) else None
  }

  /** One step of the whole system: a new invocation, or one goroutine's action. */
  ghost predicate Step(s: State, t: State) {
    || (exists doStream :: t == Begun(s, doStream))
    || (exists i: nat, a :: i < |s.calls| && Act(s.calls[i], a).Some? && t == Done(s, i, a))
  }

  function Begun(s: State, doStream: bool): State {
    State(s.inFlight + 1, s.calls + [NewCall(doStream)])
  }

  /** The count drops exactly when the invocation lets go. */
  function Done(s: State, i: nat, a: Action): State
    requires i < |s.calls| && Act(s.calls[i], a).Some?
  {
    var c := Act(s.calls[i], a).value;
    State(if c.letGo && !s.calls[i].letGo then s.inFlight - 1 else s.inFlight, s.calls[i := c])
  }

  ghost predicate Run(states: seq<State>) {
    && states != [] && states[0] == IDLE
    && forall n :: 0 <= n < |states| - 1 ==> Step(states[n], states[n + 1])
  }

  // ---- the invariant of one invocation ----

  /** Who holds the outcome: it is in exactly one place. */
  ghost predicate Held(c: Call) {
    && (c.callback.InHost? <==> c.outcome.None?)
    && (c.callback.Returned? ==> c.outcome == Some(c.callback.reply))
    && (c.channel.Some? ==> c.channel == c.outcome && (c.callback.Sent? || c.callback.Exited?))
    && (c.caller.Observed? ==> c.outcome == Some(c.caller.reply) && (c.caller.late ==> c.doStream))
    && (c.caller.LateWork? ==> c.outcome == Some(c.caller.reply) && c.doStream)
    && (c.abandon.Closing? ==> c.outcome == Some(c.abandon.reply))
    && (c.caller.Finished? && c.caller.got.Some? ==> c.caller.got == c.outcome)
  }

  /** The stages of the caller and the abandon goroutine fit together. */
  ghost predicate Staged(c: Call) {
    && (c.exited <==> c.callback.Exited?)
    && (c.letGo <==> c.exited && c.drained)
    && (!c.abandon.Unborn? ==> c.doStream && c.caller == Finished(None))
    && (c.caller.InGrace? ==> c.doStream)
    && (c.doStream && c.caller.Finished? && c.abandon.Unborn? ==> c.channel.None? && (c.callback.Sent? || c.callback.Exited?))
    && (c.drained <==> c.caller.LateWork? || (c.caller.Finished? && (c.abandon.Unborn? || c.abandon.Gone?)))
    && ((c.callback.InHost? || c.callback.Returned?) ==>
          c.channel.None? && (c.caller.Waiting? || c.caller.InGrace? || c.caller.Lapsed? || c.caller.Finished?)
          && (c.abandon.Unborn? || c.abandon.Receiving?))
    && (c.caller.Waiting? || c.caller.InGrace? || c.caller.Lapsed? || c.abandon.Receiving? ==>
          (c.callback.Sent? || c.callback.Exited? ==> c.channel.Some?))
    && (c.caller.Observed? || c.caller.LateWork? || c.abandon.Closing? || c.abandon.Settling? || c.abandon.Gone? ==> c.channel.None?)
  }

  function Bump(b: bool): nat { if b then 1 else 0 }

  /** How often the stream the host registered has been given away so far. */
  function GivenAway(c: Call): nat {
    c.closes + Bump(c.doStream && c.caller.Finished? && c.caller.got.Some? && StreamOf(c.caller.got.value).Some?)
  }

  /** Somebody still holds the outcome and will hand it on. */
  predicate Pending(c: Call) {
    c.callback.InHost? || c.callback.Returned? || c.channel.Some? || c.caller.Observed? || c.caller.LateWork? || c.abandon.Closing?
  }

  /** The registered stream, once a DoStream call's outcome has left every
      hand, was given away exactly once; before that, never. */
  ghost predicate Owned(c: Call) {
    && (c.doStream ==> GivenAway(c) == Bump(!Pending(c) && c.outcome.Some? && StreamOf(c.outcome.value).Some?))
    && (!c.doStream ==> GivenAway(c) == 0)
  }

  ghost predicate CallInv(c: Call) { Held(c) && Staged(c) && Owned(c) }

  lemma {:induction false} ActKeepsInvariant(c: Call, a: Action)
    requires CallInv(c) && Act(c, a).Some?
    ensures CallInv(Act(c, a).value)
    ensures c.letGo ==> Act(c, a).value.letGo
  {
  }

  // ---- every interleaving ----

  /** Invocations that still hold their count. */
  function Outstanding(calls: seq<Call>): nat {
    if calls == [] then 0 else Outstanding(calls[..|calls| - 1]) + Bump(!calls[|calls| - 1].letGo)
  }

  ghost predicate Inv(s: State) {
    (forall i :: 0 <= i < |s.calls| ==> CallInv(s.calls[i])) && s.inFlight == Outstanding(s.calls)
  }

  lemma {:induction false} OutstandingUpdate(calls: seq<Call>, i: nat, c: Call)
    requires i < |calls|
    ensures Outstanding(calls[i := c]) == Outstanding(calls) - Bump(!calls[i].letGo) + Bump(!c.letGo)
  {
    var n := |calls| - 1;
    var updated := calls[i := c];
    if i < n {
      OutstandingUpdate(calls[..n], i, c);
      assert updated[..n] == calls[..n][i := c];
    } else {
      assert updated[..n] == calls[..n];
    }
  }

  lemma {:induction false} StepKeepsInvariant(s: State, t: State)
    requires Inv(s) && Step(s, t)
    ensures Inv(t)
  {
    hide CallInv, Act;
    if doStream :| t == Begun(s, doStream) {
      assert t.calls[..|s.calls|] == s.calls;
      assert CallInv(NewCall(doStream)) by {
        NewCallInv(doStream);
      }
    } else {
      var i: nat, a :| i < |s.calls| && Act(s.calls[i], a).Some? && t == Done(s, i, a);
      ActKeepsInvariant(s.calls[i], a);
      OutstandingUpdate(s.calls, i, Act(s.calls[i], a).value);
    }
  }

  lemma {:induction false} NewCallInv(doStream: bool)
    ensures CallInv(NewCall(doStream))
  {
  }

  lemma {:induction false} RunKeepsInvariant(states: seq<State>)
    requires Run(states)
    ensures Inv(states[|states| - 1])
  {
    hide Inv, Step;
    var n := |states| - 1;
    if n == 0 {
      assert Inv(IDLE) by {
        IdleInv();
      }
    } else {
      assert Run(states[..n]);
      RunKeepsInvariant(states[..n]);
      StepKeepsInvariant(states[n - 1], states[n]);
    }
  }

  lemma {:induction false} IdleInv()
    ensures Inv(IDLE)
  {
  }

  lemma {:induction false} OutstandingZero(calls: seq<Call>)
    ensures Outstanding(calls) == 0 <==> forall i :: 0 <= i < |calls| ==> calls[i].letGo
  {
    if calls == [] {
    } else {
      OutstandingZero(calls[..|calls| - 1]);
    }
  }

  /** Nothing of the invocation is inside the host or still owed by a goroutine
      the count is there for. */
  predicate Quiet(c: Call) {
    && c.callback.Exited? && (c.abandon.Unborn? || c.abandon.Gone?)
    && (c.caller.Finished? || c.caller.LateWork?)
  }

  /** In-flight accounting over every interleaving: the count is the number of
      invocations that have not let go, never negative, and it is zero exactly
      when no callback is inside the host, no caller waits and no abandoned
      result is awaited or being closed. */
  lemma {:induction false} CountIsExact(states: seq<State>)
    requires Run(states)
    ensures var s := states[|states| - 1];
            && s.inFlight == Outstanding(s.calls) >= 0
            && (s.inFlight == 0 <==> forall i :: 0 <= i < |s.calls| ==> Quiet(s.calls[i]))
  {
    hide Held, Owned, Outstanding;
    RunKeepsInvariant(states);
    var s := states[|states| - 1];
    OutstandingZero(s.calls);
    assert forall i :: 0 <= i < |s.calls| ==> CallInv(s.calls[i]) && (s.calls[i].letGo <==> Quiet(s.calls[i]));
  }

  /** Stream ownership over every interleaving: a registered stream is never
      given away twice, and once nothing is pending it was either returned to
      the caller or closed, exactly once. */
  lemma {:induction false} StreamsAreOwned(states: seq<State>, i: nat)
    requires Run(states) && i < |states[|states| - 1].calls| && states[|states| - 1].calls[i].doStream
    ensures var c := states[|states| - 1].calls[i];
            && GivenAway(c) <= 1
            && (!Pending(c) ==> c.outcome.Some? && GivenAway(c) == Bump(StreamOf(c.outcome.value).Some?))
            && (c.caller.Finished? && c.caller.got.Some? ==> c.caller.got == c.outcome && c.closes == 0)
  {
    hide Staged;
    RunKeepsInvariant(states);
    assert CallInv(states[|states| - 1].calls[i]);
  }

  /** What the zero count does not cover, exactly: a stream registered by a
      DoStream call and not yet given away, which is then in the hands of a
      caller about to close a late result. */
  lemma {:induction false} ZeroCountGap(states: seq<State>, i: nat)
    requires Run(states) && states[|states| - 1].inFlight == 0
    requires i < |states[|states| - 1].calls| && states[|states| - 1].calls[i].doStream
    ensures var c := states[|states| - 1].calls[i];
            c.outcome.Some?
            && (GivenAway(c) == Bump(StreamOf(c.outcome.value).Some?)
                <==> !(c.caller.LateWork? && StreamOf(c.caller.reply).Some?))
  {
    CountIsExact(states);
    RunKeepsInvariant(states);
    assert CallInv(states[|states| - 1].calls[i]) && Quiet(states[|states| - 1].calls[i]);
  }

  /** The gap is reachable: a result inside the grace window, settled, with the
      count back at zero and its stream still open. */
  lemma {:induction false} ZeroCountGapIsReachable() returns (states: seq<State>)
    ensures Run(states)
    ensures var s := states[|states| - 1];
            s.inFlight == 0 && |s.calls| == 1 && s.calls[0].caller == LateWork(Replied(Some(7))) && s.calls[0].closes == 0
  {
    var reply := Replied(Some(7));
    states := [IDLE];
    assert Step(IDLE, Begun(IDLE, true));
    states := Extend(states, Begun(IDLE, true));
    states := StepBy(states, CallbackReturns(reply));
    states := StepBy(states, CallbackSends);
    states := StepBy(states, CallbackExits);
    states := StepBy(states, DeadlinePasses);
    states := StepBy(states, GraceReceives);
    states := StepBy(states, CallerSettles);
  }

  lemma {:induction false} Extend(states: seq<State>, t: State) returns (longer: seq<State>)
    requires Run(states) && Step(states[|states| - 1], t)
    ensures Run(longer) && longer == states + [t] && longer[|longer| - 1] == t
  {
    hide Step;
    longer := states + [t];
  }

  lemma {:induction false} StepBy(states: seq<State>, a: Action) returns (longer: seq<State>)
    requires Run(states) && |states[|states| - 1].calls| == 1 && Act(states[|states| - 1].calls[0], a).Some?
    ensures Run(longer) && longer[|longer| - 1] == Done(states[|states| - 1], 0, a)
  {
    hide Act;
    longer := Extend(states, Done(states[|states| - 1], 0, a));
  }

  // ---- one invocation, told by its actions ----

  /** The invocation after some actions of its goroutines. */
  function After(c: Call, actions: seq<Action>): Option<Call> {
    if actions == [] then Some(c)
    else
      var before := After(c, actions[..|actions| - 1]);
      if before.Some? then Act(before.value, actions[|actions| - 1]) else None
  }

  /** Where an invocation can be, by whether its deadline has passed. */
  ghost predicate Timed(c: Call, expired: bool) {
    if expired then
      c.caller.InGrace? || c.caller.Lapsed? || c.caller.LateWork? || (c.caller.Observed? && c.caller.late) || c.caller == Finished(None)
    else
      && c.closes == 0 && c.abandon.Unborn?
      && (c.caller.Waiting? || (c.caller.Observed? && !c.caller.late)
          || (c.caller == Finished(c.outcome) && c.outcome.Some?))
  }

  lemma {:induction false} AfterTells(doStream: bool, actions: seq<Action>)
    requires After(NewCall(doStream), actions).Some?
    ensures var c := After(NewCall(doStream), actions).value;
            && CallInv(c) && c.doStream == doStream && Timed(c, DeadlinePasses in actions)
            && forall reply :: CallbackReturns(reply) in actions <==> c.outcome == Some(reply)
  {
    hide CallInv;
    if actions == [] {
      NewCallInv(doStream);
    } else {
      var before := actions[..|actions| - 1];
      AfterTells(doStream, before);
      assert actions == before + [actions[|actions| - 1]];
      ActTells(After(NewCall(doStream), before).value, actions[|actions| - 1], DeadlinePasses in before);
    }
  }

  lemma {:induction false} ActTells(c: Call, a: Action, expired: bool)
    requires CallInv(c) && Act(c, a).Some? && Timed(c, expired)
    ensures var d := Act(c, a).value;
            && CallInv(d) && d.doStream == c.doStream && Timed(d, expired || a == DeadlinePasses)
            && (a.CallbackReturns? ==> c.outcome.None?)
            && d.outcome == if a.CallbackReturns? then Some(a.reply) else c.outcome
  {
    ActKeepsInvariant(c, a);
  }

  /** What an invocation comes to: without the deadline the caller gets the
      host's own reply and nothing is closed; with it the caller gets a timeout
      and a stream the host registered is closed, once. */
  lemma {:induction false} InvocationsEnd(doStream: bool, actions: seq<Action>)
    requires After(NewCall(doStream), actions).Some? && Over(After(NewCall(doStream), actions).value)
    ensures var c := After(NewCall(doStream), actions).value;
            && (exists reply :: CallbackReturns(reply) in actions)
            && forall reply :: CallbackReturns(reply) in actions ==>
                 if DeadlinePasses in actions then
                   c.caller == Finished(None) && c.closes == Bump(doStream && reply.Replied? && reply.stream.Some?)
                 else
                   c.caller == Finished(Some(reply)) && c.closes == 0
  {
    AfterTells(doStream, actions);
    assert CallbackReturns(After(NewCall(doStream), actions).value.outcome.value) in actions;
  }

  /** In every interleaving an invocation is what its own actions made of it. */
  lemma {:induction false} CallsAreTheirActions(states: seq<State>, i: nat) returns (actions: seq<Action>)
    requires Run(states) && i < |states[|states| - 1].calls|
    ensures var c := states[|states| - 1].calls[i]; After(NewCall(c.doStream), actions) == Some(c)
  {
    hide Act;
    var n := |states| - 1;
    var s, t := states[n - 1], states[n];
    assert Run(states[..n]) && Step(s, t);
    if i == |s.calls| {
      actions := [];
    } else {
      actions := CallsAreTheirActions(states[..n], i);
      if !exists doStream :: t == Begun(s, doStream) {
        var j: nat, a :| j < |s.calls| && Act(s.calls[j], a).Some? && t == Done(s, j, a);
        if i == j {
          ActKeepsKind(s.calls[i], a);
          assert (actions + [a])[..|actions|] == actions;
          actions := actions + [a];
        }
      }
    }
  }

  lemma {:induction false} ActKeepsKind(c: Call, a: Action)
    requires Act(c, a).Some?
    ensures Act(c, a).value.doStream == c.doStream
  {
  }

  /** The host cannot hold the caller: with the callback stuck inside, some
      actions of the caller alone let it return. */
  lemma {:induction false} CallerIsNeverHeld(c: Call) returns (actions: seq<Action>)
    requires CallInv(c)
    ensures After(c, actions).Some? && After(c, actions).value.caller.Finished?
    ensures forall a :: a in actions ==>
              a.DeadlinePasses? || a.GracePasses? || a.CallerGivesUp? || a.CallerSettles? || a.CallerClosesLate?
    decreases Rank(c)
  {
    if c.caller.Finished? {
      actions := [];
    } else {
      var a := if c.caller.Waiting? then DeadlinePasses else if c.caller.InGrace? then GracePasses
               else if c.caller.Lapsed? then CallerGivesUp else if c.caller.Observed? then CallerSettles else CallerClosesLate;
      ActKeepsInvariant(c, a);
      var rest := CallerIsNeverHeld(Act(c, a).value);
      AfterFirst(c, a, rest);
      actions := [a] + rest;
    }
  }

  lemma {:induction false} AfterFirst(c: Call, a: Action, rest: seq<Action>)
    requires Act(c, a).Some?
    ensures After(c, [a] + rest) == After(Act(c, a).value, rest)
  {
    hide Act;
    if rest == [] {
    } else {
      AfterFirst(c, a, rest[..|rest| - 1]);
      assert ([a] + rest)[..|rest|] == [a] + rest[..|rest| - 1];
    }
  }

  // ---- progress ----

  /** Every goroutine of the invocation is through. */
  predicate Over(c: Call) {
    c.callback.Exited? && c.caller.Finished? && (c.abandon.Unborn? || c.abandon.Gone?)
  }

  function Rank(c: Call): nat {
    (match c.callback case InHost => 3 case Returned(_) => 2 case Sent => 1 case Exited => 0)
    + (match c.caller case Waiting => 6 case InGrace => 5 case Lapsed => 4 case Observed(_, _) => 2 case LateWork(_) => 1 case Finished(_) => 0)
    + (match c.abandon case Unborn => 0 case Receiving => 3 case Closing(_) => 2 case Settling => 1 case Gone => 0)
  }

  /** No action can be repeated for ever, and an invocation that is not over can
      always move (a callback still in the host moves when the host returns):
      every invocation comes to rest, and only with its count released. */
  lemma {:induction false} InvocationsComeToRest(c: Call, reply: Reply)
    requires CallInv(c)
    ensures forall a :: Act(c, a).Some? ==> Rank(Act(c, a).value) < Rank(c)
    ensures Over(c) || exists a :: Act(c, a).Some? && (a.CallbackReturns? ==> a.reply == reply)
    ensures Over(c) ==> c.letGo && !exists a :: Act(c, a).Some?
  {
    hide Held, Owned;
    var next := if c.callback.InHost? then CallbackReturns(reply)
                else if c.callback.Returned? then CallbackSends
                else if c.callback.Sent? then CallbackExits
                else if c.caller.Waiting? then CallerReceives
                else if c.caller.InGrace? then GraceReceives
                else if c.caller.Lapsed? then CallerGivesUp
                else if c.caller.Observed? then CallerSettles
                else if c.caller.LateWork? then CallerClosesLate
                else if c.abandon.Receiving? then AbandonReceives
                else if c.abandon.Closing? then AbandonCloses
                else AbandonSettles;
    assert Over(c) || Act(c, next).Some?;
  }
}
