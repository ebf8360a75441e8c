/** The request-local stream timers (internal/plugin/stream_controller.go) as a
    step relation over the pump goroutine that owns the controller and the
    goroutines of its timers. */
module StreamController {
  import opened Common

  /** A timer's life. `Pending` is armed, `Fired` its goroutine before the lock,
      `Claimed` after it set the cause and before the stream close, `Leaving`
      before the deferred WaitGroup Done. */
  datatype Status = Pending | Fired | Claimed | Leaving | Gone | Stopped

  /** Generation 0 is the total timer's. */
  datatype Timer = Timer(generation: nat, cause: string, status: Status)

  datatype Owner = Running | Waiting | Returned

  /** `closes` counts stream closes by timers; `claimant` is history. */
  datatype State = State(generation: nat, active: bool, cause: string, phase: Option<nat>, timers: seq<Timer>, waiting: int,
                         owner: Owner, closes: nat, claimant: Option<nat>)

  const TOTAL := 0
  const NEW := State(0, true, "", None, [Timer(0, "total", Pending)], 1, Running, 0, None)

  datatype Action =
    | Arm(cause: string)
    | Stop
    | WaitReturns
    | Expire(timer: nat)
    | Fire(timer: nat)
    | CloseStream(timer: nat)
    | Leave(timer: nat)

  function WithStatus(s: State, i: nat, status: Status): State
    requires i < |s.timers|
  {
    s.(timers := s.timers[i := s.timers[i].(status := status)])
  }

  /** time.Timer.Stop, and the Done its success owes. */
  function StopTimer(s: State, i: nat): State {
    if i < |s.timers| && s.timers[i].status.Pending? then WithStatus(s, i, Stopped).(waiting := s.waiting - 1) else s
  }

  function StopPhase(s: State): State { if s.phase.Some? then StopTimer(s, s.phase.value) else s }

  /** Re-arm the phase timer under the lock. */
  function Armed(s: State, cause: string): State {
    var s1 := StopPhase(s.(generation := s.generation + 1));
    s1.(timers := s1.timers + [Timer(s1.generation, cause, Pending)], waiting := s1.waiting + 1, phase := Some(|s1.timers|))
  }

  /** The locked part of stop. */
  function Deactivated(s: State): State {
    StopTimer(StopPhase(s.(active := false, generation := s.generation + 1)), TOTAL).(owner := Waiting)
  }

  predicate MayClaim(s: State, t: Timer) {
    s.active && (t.generation == 0 || t.generation == s.generation) && s.cause == ""
  }

  function Act(s: State, a: Action): Option<State> {
    match a
    case Arm(cause) => if s.owner.Running? && cause != "" then Some(Armed(s, cause)) else None
    case Stop => if s.owner.Running? then Some(Deactivated(s)) else None
    case WaitReturns => if s.owner.Waiting? && s.waiting == 0 then Some(s.(owner := Returned)) else None
    case Expire(i) => if i < |s.timers| && s.timers[i].status.Pending? then Some(WithStatus(s, i, Fired)) else None
    case Fire(i) =>
      if i >= |s.timers| || !s.timers[i].status.Fired? then None
      else if MayClaim(s, s.timers[i])
      then Some(WithStatus(s, i, Claimed).(cause := s.timers[i].cause, active := false, claimant := Some(i)))
      else Some(WithStatus(s, i, Leaving))
    case CloseStream(i) =>
      if i < |s.timers| && s.timers[i].status.Claimed? then Some(WithStatus(s, i, Leaving).(closes := s.closes + 1)) else None
    case Leave(i) =>
      if i < |s.timers| && s.timers[i].status.Leaving? then Some(WithStatus(s, i, Gone).(waiting := s.waiting - 1)) else None
  }

  function Run(actions: seq<Action>): Option<State> {
    if actions == [] then Some(NEW)
    else
      var s := Run(actions[..|actions| - 1]);
      if s.Some? then Act(s.value, actions[|actions| - 1]) else None
  }

  // ---- the invariant ----

  predicate Live(t: Timer) { !t.status.Gone? && !t.status.Stopped? }

  function Bump(b: bool): nat { if b then 1 else 0 }

  function LiveCount(timers: seq<Timer>): nat {
    if timers == [] then 0 else LiveCount(timers[..|timers| - 1]) + Bump(Live(timers[|timers| - 1]))
  }

  ghost predicate Counted(s: State) {
    s.waiting == LiveCount(s.timers) && (s.owner.Returned? ==> s.waiting == 0)
  }

  /** Generations grow, only the newest phase timer and the total timer can be
      pending, and nothing is pending once the owner stopped. */
  ghost predicate Shape(s: State) {
    && |s.timers| > 0 && s.timers[TOTAL].generation == 0
    && (forall i, j :: 0 <= i < j < |s.timers| ==> s.timers[i].generation < s.timers[j].generation)
    && s.timers[|s.timers| - 1].generation <= s.generation
    && (forall i :: 0 <= i < |s.timers| ==> s.timers[i].cause != "")
    && s.phase == (if |s.timers| == 1 then None else Some(|s.timers| - 1))
    && (forall i :: 0 <= i < |s.timers| && s.timers[i].status.Pending? ==> s.owner.Running? && (i == TOTAL || i == |s.timers| - 1))
    && (s.owner.Running? ==> s.timers[|s.timers| - 1].generation == s.generation)
    && (s.active <==> s.owner.Running? && s.cause == "")
  }

  ghost predicate Inv(s: State) { Counted(s) && Shape(s) && Claims(s) }

  /** One claim at most, made by a timer that was current, and closed once. */
  ghost predicate Claims(s: State) {
    && (s.cause == "" <==> s.claimant.None?)
    && (s.claimant.Some? ==> s.claimant.value < |s.timers| && s.timers[s.claimant.value].cause == s.cause)
    && (forall i :: 0 <= i < |s.timers| && s.timers[i].status.Claimed? ==> s.claimant == Some(i))
    && s.closes == Bump(s.claimant.Some? && !s.timers[s.claimant.value].status.Claimed?)
    && (s.claimant.Some? ==>
          var t := s.timers[s.claimant.value].status;
          t.Claimed? || t.Leaving? || t.Gone?)
  }

  lemma {:induction false} LiveUpdate(timers: seq<Timer>, i: nat, t: Timer)
    requires i < |timers|
    ensures LiveCount(timers[i := t]) == LiveCount(timers) - Bump(Live(timers[i])) + Bump(Live(t))
  {
    var n := |timers| - 1;
    var updated := timers[i := t];
    if i < n {
      LiveUpdate(timers[..n], i, t);
      assert updated[..n] == timers[..n][i := t];
    } else {
      assert updated[..n] == timers[..n];
    }
  }

  lemma {:induction false} LiveAppend(timers: seq<Timer>, t: Timer)
    ensures LiveCount(timers + [t]) == LiveCount(timers) + Bump(Live(t))
  {
    assert (timers + [t])[..|timers|] == timers;
  }

  /** Stopping a timer moves nothing but its status and the count. */
  lemma {:induction false} StopTimerEffect(s: State, i: nat)
    ensures var t := StopTimer(s, i);
            && t == s.(timers := t.timers, waiting := t.waiting) && |t.timers| == |s.timers|
            && (forall j :: 0 <= j < |s.timers| ==>
                  t.timers[j] == s.timers[j].(status := if j == i && s.timers[j].status.Pending? then Stopped else s.timers[j].status))
            && t.waiting - LiveCount(t.timers) == s.waiting - LiveCount(s.timers)
  {
    if i < |s.timers| {
      LiveUpdate(s.timers, i, s.timers[i].(status := Stopped));
    }
  }

  lemma {:induction false} StopPhaseEffect(s: State)
    requires s.phase == (if |s.timers| == 1 then None else Some(|s.timers| - 1)) && |s.timers| > 0
    requires forall i :: 0 <= i < |s.timers| && s.timers[i].status.Pending? ==> i == TOTAL || i == |s.timers| - 1
    ensures var t := StopPhase(s);
            && t == s.(timers := t.timers, waiting := t.waiting) && |t.timers| == |s.timers|
            && (forall j :: 0 <= j < |s.timers| ==>
                  t.timers[j] == s.timers[j].(status := if j > 0 && s.timers[j].status.Pending? then Stopped else s.timers[j].status))
            && t.waiting - LiveCount(t.timers) == s.waiting - LiveCount(s.timers)
  {
    if s.phase.Some? {
      StopTimerEffect(s, s.phase.value);
    }
    hide StopTimer, LiveCount;
  }

  lemma {:induction false} ArmKeeps(s: State, cause: string)
    requires Inv(s) && s.owner.Running? && cause != ""
    ensures Inv(Armed(s, cause))
  {
    hide LiveCount, StopPhase;
    var s1 := StopPhase(s.(generation := s.generation + 1));
    StopPhaseEffect(s.(generation := s.generation + 1));
    LiveAppend(s1.timers, Timer(s.generation + 1, cause, Pending));
  }

  lemma {:induction false} StopKeeps(s: State)
    requires Inv(s) && s.owner.Running?
    ensures Inv(Deactivated(s))
  {
    hide LiveCount, StopPhase, StopTimer;
    var s0 := s.(active := false, generation := s.generation + 1);
    StopPhaseEffect(s0);
    StopTimerEffect(StopPhase(s0), TOTAL);
  }

  /** A timer goroutine's own step. */
  lemma {:induction false} TimerKeepsShape(s: State, i: nat, status: Status)
    requires Shape(s) && i < |s.timers| && !status.Pending?
    ensures Shape(WithStatus(s, i, status))
  {
  }

  lemma {:induction false} ActKeepsInvariant(s: State, a: Action)
    requires Inv(s) && Act(s, a).Some?
    ensures Inv(Act(s, a).value)
  {
    hide LiveCount, Armed, Deactivated, Shape;
    match a
    case Arm(cause) => ArmKeeps(s, cause);
    case Stop => StopKeeps(s);
    case WaitReturns => OwnerReturns(s);
    case Expire(i) => ExpireKeeps(s, i);
    case Fire(i) => FireKeeps(s, i);
    case CloseStream(i) => CloseKeeps(s, i);
    case Leave(i) => LeaveKeeps(s, i);
  }

  lemma {:induction false} ExpireKeeps(s: State, i: nat)
    requires Inv(s) && Act(s, Expire(i)).Some?
    ensures Inv(Act(s, Expire(i)).value)
  {
    hide LiveCount, Armed, Deactivated, Shape;
    LiveUpdate(s.timers, i, s.timers[i].(status := Fired));
    TimerKeepsShape(s, i, Fired);
  }

  lemma {:induction false} CloseKeeps(s: State, i: nat)
    requires Inv(s) && Act(s, CloseStream(i)).Some?
    ensures Inv(Act(s, CloseStream(i)).value)
  {
    hide LiveCount, Armed, Deactivated, Shape;
    LiveUpdate(s.timers, i, s.timers[i].(status := Leaving));
    TimerKeepsShape(s, i, Leaving);
    CountIrrelevant(WithStatus(s, i, Leaving), Act(s, CloseStream(i)).value);
  }

  lemma {:induction false} LeaveKeeps(s: State, i: nat)
    requires Inv(s) && Act(s, Leave(i)).Some?
    ensures Inv(Act(s, Leave(i)).value)
  {
    hide LiveCount, Armed, Deactivated, Shape;
    LiveUpdate(s.timers, i, s.timers[i].(status := Gone));
    TimerKeepsShape(s, i, Gone);
    CountIrrelevant(WithStatus(s, i, Gone), Act(s, Leave(i)).value);
  }

  lemma {:induction false} CountIrrelevant(s: State, t: State)
    requires Shape(s) && t == s.(waiting := t.waiting, closes := t.closes)
    ensures Shape(t)
  {
  }

  lemma {:induction false} OwnerReturns(s: State)
    requires Inv(s) && s.owner.Waiting? && s.waiting == 0
    ensures Inv(s.(owner := Returned))
  {
    hide LiveCount;
  }

  lemma {:induction false} FireKeeps(s: State, i: nat)
    requires Inv(s) && Act(s, Fire(i)).Some?
    ensures Inv(Act(s, Fire(i)).value)
  {
    hide LiveCount;
    LiveUpdate(s.timers, i, s.timers[i].(status := Claimed));
    LiveUpdate(s.timers, i, s.timers[i].(status := Leaving));
  }

  lemma {:induction false} RunKeepsInvariant(actions: seq<Action>)
    requires Run(actions).Some?
    ensures Inv(Run(actions).value)
  {
    hide Inv, Act;
    if actions == [] {
      assert Inv(NEW) by {
        NewInv();
      }
    } else {
      RunKeepsInvariant(actions[..|actions| - 1]);
      ActKeepsInvariant(Run(actions[..|actions| - 1]).value, actions[|actions| - 1]);
    }
  }

  lemma {:induction false} NewInv()
    ensures Inv(NEW)
  {
    LiveAppend([], Timer(0, "total", Pending));
    assert [] + [Timer(0, "total", Pending)] == NEW.timers;
  }

  // ---- what holds over every interleaving ----

  /** The WaitGroup count is always the number of pending timers plus running
      callbacks; timers close the stream at most once, and only for the cause. */
  lemma {:induction false} CountAndCause(actions: seq<Action>)
    requires Run(actions).Some?
    ensures var s := Run(actions).value;
            && s.waiting == LiveCount(s.timers) >= 0 && s.closes <= 1
            && (s.cause == "" ==> s.closes == 0)
            && (forall i :: 0 <= i < |s.timers| && s.timers[i].status.Claimed? ==> s.timers[i].cause == s.cause && s.closes == 0)
            && (forall i :: 0 <= i < |s.timers| - 1 && i != TOTAL ==> !s.timers[i].status.Pending?)
  {
    hide LiveCount, Run;
    RunKeepsInvariant(actions);
  }

  /** A timer is outdated once a newer phase was armed or the owner stopped. */
  predicate Outdated(s: State, i: nat) {
    i < |s.timers| && 0 < s.timers[i].generation < s.generation
  }

  /** The cause is set at most once, never by an outdated phase timer, and never
      after stop; an outdated timer stays outdated. */
  lemma {:induction false} CauseIsFinal(s: State, a: Action)
    requires Inv(s) && Act(s, a).Some?
    ensures var t := Act(s, a).value;
            && (s.cause != "" ==> t.cause == s.cause)
            && (!s.owner.Running? ==> t.cause == s.cause)
            && (t.cause != s.cause ==> a.Fire? && !Outdated(s, a.timer) && t.cause == s.timers[a.timer].cause)
            && (forall i: nat :: Outdated(s, i) ==> Outdated(t, i))
            && (forall i: nat :: Outdated(s, i) && !s.timers[i].status.Claimed? ==> !t.timers[i].status.Claimed?)
  {
    hide LiveCount, Armed, Deactivated;
    match a
    case Arm(cause) => ArmOutdates(s, cause);
    case Stop => StopOutdates(s);
    case _ =>
  }

  lemma {:induction false} ArmOutdates(s: State, cause: string)
    requires Inv(s)
    ensures var t := Armed(s, cause);
            && t.cause == s.cause && t.generation > s.generation && |t.timers| == |s.timers| + 1
            && (forall i :: 0 <= i < |s.timers| ==> t.timers[i].generation == s.timers[i].generation
                                                    && (t.timers[i].status.Claimed? ==> s.timers[i].status.Claimed?))
  {
    hide LiveCount, StopPhase;
    StopPhaseEffect(s.(generation := s.generation + 1));
  }

  lemma {:induction false} StopOutdates(s: State)
    requires Inv(s)
    ensures var t := Deactivated(s);
            && t.cause == s.cause && t.generation > s.generation && |t.timers| == |s.timers|
            && (forall i :: 0 <= i < |s.timers| ==> t.timers[i].generation == s.timers[i].generation
                                                    && (t.timers[i].status.Claimed? ==> s.timers[i].status.Claimed?))
  {
    hide LiveCount, StopPhase, StopTimer;
    var s0 := s.(active := false, generation := s.generation + 1);
    StopPhaseEffect(s0);
    StopTimerEffect(StopPhase(s0), TOTAL);
  }

  // ---- every limit bites ----

  /** The causes of the phases armed, in order. */
  function Phases(actions: seq<Action>): seq<string> {
    if actions == [] then []
    else
      var a := actions[|actions| - 1];
      Phases(actions[..|actions| - 1]) + (if a.Arm? then [a.cause] else [])
  }

  /** The total timer and the newest phase timer. */
  predicate Current(s: State, i: nat) { i < |s.timers| && (i == 0 || i == |s.timers| - 1) }

  /** While nothing has stopped the stream, the total timer and the newest phase
      timer are still to fire. */
  ghost predicate Ready(s: State) {
    s.owner.Running? && s.cause == "" ==>
      forall i: nat :: Current(s, i) ==> s.timers[i].status.Pending? || s.timers[i].status.Fired?
  }

  /** The timers are the total timer and one for each phase, and the owner runs
      until it stops. */
  ghost predicate Told(s: State, actions: seq<Action>) {
    && |s.timers| == 1 + |Phases(actions)|
    && (forall i: nat :: i < |s.timers| ==> s.timers[i].cause == if i == 0 then "total" else Phases(actions)[i - 1])
    && (s.owner.Running? <==> Stop !in actions)
  }

  lemma {:induction false} ArmTells(s: State, cause: string)
    requires Inv(s)
    ensures var t := Armed(s, cause);
            && t == s.(generation := t.generation, timers := t.timers, waiting := t.waiting, phase := t.phase)
            && |t.timers| == |s.timers| + 1
            && t.timers[|s.timers|].cause == cause && t.timers[|s.timers|].status == Pending && t.timers[0].status == s.timers[0].status
            && forall i: nat :: i < |s.timers| ==> t.timers[i].cause == s.timers[i].cause
  {
    hide LiveCount, StopPhase;
    StopPhaseEffect(s.(generation := s.generation + 1));
  }

  lemma {:induction false} ActTells(s: State, a: Action)
    requires Inv(s) && Act(s, a).Some? && Ready(s)
    ensures var t := Act(s, a).value;
            && Ready(t) && |t.timers| == |s.timers| + Bump(a.Arm?)
            && (forall i: nat :: i < |s.timers| ==> t.timers[i].cause == s.timers[i].cause)
            && (a.Arm? ==> t.timers[|s.timers|].cause == a.cause)
            && (t.owner.Running? <==> s.owner.Running? && a != Stop)
  {
    hide LiveCount, Armed, Deactivated;
    match a
    case Arm(cause) => ArmTells(s, cause);
    case Stop => StopTells(s);
    case _ =>
  }

  lemma {:induction false} StopTells(s: State)
    requires Inv(s)
    ensures var t := Deactivated(s);
            && |t.timers| == |s.timers| && t.owner.Waiting?
            && forall i: nat :: i < |s.timers| ==> t.timers[i].cause == s.timers[i].cause
  {
    hide LiveCount, StopPhase, StopTimer;
    var s0 := s.(active := false, generation := s.generation + 1);
    StopPhaseEffect(s0);
    StopTimerEffect(StopPhase(s0), TOTAL);
  }

  lemma {:induction false} RunTells(actions: seq<Action>)
    requires Run(actions).Some?
    ensures var s := Run(actions).value; Inv(s) && Ready(s) && Told(s, actions)
  {
    hide Inv, Act, Ready;
    if actions == [] {
      NewInv();
      assert Ready(NEW) by {
        NewReady();
      }
    } else {
      var before := actions[..|actions| - 1];
      RunTells(before);
      ActKeepsInvariant(Run(before).value, actions[|before|]);
      ActTells(Run(before).value, actions[|before|]);
      assert actions == before + [actions[|before|]];
    }
  }

  lemma {:induction false} NewReady()
    ensures Ready(NEW)
  {
  }

  /** A timer that fires stops the stream, for its own cause and with the only
      close, exactly if the owner has not stopped, no cause was set and it is the
      total timer or that of the newest phase; otherwise it leaves everything as
      it is. */
  lemma {:induction false} FireIsExact(actions: seq<Action>, i: nat)
    requires Run(actions).Some? && i < |Run(actions).value.timers| && Run(actions).value.timers[i].status.Fired?
    ensures var s := Run(actions).value;
            && Act(s, Fire(i)).Some?
            && var t := Act(s, Fire(i)).value;
            if Stop !in actions && s.cause == "" && (i == 0 || i == |Phases(actions)|) then
              && t.cause == (if i == 0 then "total" else Phases(actions)[i - 1])
              && Act(t, CloseStream(i)).Some? && s.closes == t.closes == 0 && Act(t, CloseStream(i)).value.closes == 1
            else
              t.cause == s.cause && t.closes == s.closes && Act(t, CloseStream(i)).None?
  {
    hide LiveCount, Run, Ready;
    RunTells(actions);
  }

  /** Every limit bites: as long as the owner has not stopped and no cause is
      set, the total timer and that of the newest phase can run out, and doing so
      sets that cause and closes the stream. */
  lemma {:induction false} LimitsBite(actions: seq<Action>, i: nat) returns (more: seq<Action>)
    requires Run(actions).Some? && Run(actions).value.cause == "" && Stop !in actions
    requires i == 0 || i == |Phases(actions)|
    ensures more == [Expire(i), Fire(i), CloseStream(i)] || more == [Fire(i), CloseStream(i)]
    ensures Run(actions + more).Some?
    ensures var t := Run(actions + more).value;
            t.cause == (if i == 0 then "total" else Phases(actions)[i - 1]) && t.closes == 1
  {
    hide LiveCount, Run;
    RunTells(actions);
    var s := Run(actions).value;
    assert Current(s, i);
    more := [Fire(i), CloseStream(i)];
    if s.timers[i].status.Pending? {
      RunExtends(actions, Expire(i));
      RunTwo(actions + [Expire(i)], Fire(i), CloseStream(i));
      assert actions + [Expire(i)] + more == actions + ([Expire(i)] + more);
      more := [Expire(i)] + more;
    } else {
      RunTwo(actions, Fire(i), CloseStream(i));
    }
  }

  /** Until it stops, the owner can always arm the next phase or stop. */
  lemma {:induction false} OwnerIsNeverHeld(actions: seq<Action>, cause: string)
    requires Run(actions).Some? && Stop !in actions && cause != ""
    ensures Run(actions + [Arm(cause)]).Some? && Run(actions + [Stop]).Some?
  {
    hide LiveCount, Armed, Deactivated, Run;
    RunTells(actions);
    RunExtends(actions, Arm(cause));
    RunExtends(actions, Stop);
  }

  lemma {:induction false} RunExtends(actions: seq<Action>, a: Action)
    requires Run(actions).Some?
    ensures Run(actions + [a]) == Act(Run(actions).value, a)
  {
    hide Act;
    assert (actions + [a])[..|actions|] == actions;
  }

  lemma {:induction false} RunTwo(actions: seq<Action>, a: Action, b: Action)
    requires Run(actions).Some? && Act(Run(actions).value, a).Some?
    ensures Run(actions + [a, b]) == Act(Act(Run(actions).value, a).value, b)
  {
    hide Act;
    RunExtends(actions, a);
    RunExtends(actions + [a], b);
    assert actions + [a] + [b] == actions + [a, b];
  }

  lemma {:induction false} NoneLive(timers: seq<Timer>)
    ensures LiveCount(timers) == 0 <==> forall i :: 0 <= i < |timers| ==> !Live(timers[i])
  {
    if timers == [] {
    } else {
      NoneLive(timers[..|timers| - 1]);
    }
  }

  /** After stop has returned nothing fires, nothing runs, nothing can happen. */
  lemma {:induction false} StopIsFinal(actions: seq<Action>, a: Action)
    requires Run(actions).Some? && Run(actions).value.owner.Returned?
    ensures Act(Run(actions).value, a).None?
    ensures forall i :: 0 <= i < |Run(actions).value.timers| ==> !Live(Run(actions).value.timers[i])
  {
    hide LiveCount, Run;
    RunKeepsInvariant(actions);
    var s := Run(actions).value;
    NoneLive(s.timers);
    assert a.Expire? || a.Fire? || a.CloseStream? || a.Leave? ==> (a.timer < |s.timers| ==> !Live(s.timers[a.timer]));
  }

  /** Steps left to a timer. */
  function StepsLeft(t: Timer): nat {
    match t.status case Pending => 4 case Fired => 3 case Claimed => 2 case Leaving => 1 case Gone => 0 case Stopped => 0
  }

  function TotalLeft(timers: seq<Timer>): nat {
    if timers == [] then 0 else TotalLeft(timers[..|timers| - 1]) + StepsLeft(timers[|timers| - 1])
  }

  lemma {:induction false} LeftUpdate(timers: seq<Timer>, i: nat, t: Timer)
    requires i < |timers|
    ensures TotalLeft(timers[i := t]) == TotalLeft(timers) - StepsLeft(timers[i]) + StepsLeft(t)
  {
    var n := |timers| - 1;
    var updated := timers[i := t];
    if i < n {
      LeftUpdate(timers[..n], i, t);
      assert updated[..n] == timers[..n][i := t];
    } else {
      assert updated[..n] == timers[..n];
    }
  }

  /** stop never blocks for ever: while it waits, some step is enabled, and every
      step but its own return uses up a bounded budget. */
  lemma {:induction false} StopReturns(s: State)
    requires Inv(s) && s.owner.Waiting?
    ensures Act(s, WaitReturns).Some? || exists i: nat :: Act(s, Fire(i)).Some? || Act(s, CloseStream(i)).Some? || Act(s, Leave(i)).Some?
    ensures forall a :: Act(s, a).Some? && !a.WaitReturns? ==> TotalLeft(Act(s, a).value.timers) < TotalLeft(s.timers)
  {
    hide LiveCount, TotalLeft;
    NoneLive(s.timers);
    if s.waiting != 0 {
      var i :| 0 <= i < |s.timers| && Live(s.timers[i]);
      assert Act(s, Fire(i)).Some? || Act(s, CloseStream(i)).Some? || Act(s, Leave(i)).Some?;
    }
    forall a | Act(s, a).Some? && !a.WaitReturns?
      ensures TotalLeft(Act(s, a).value.timers) < TotalLeft(s.timers)
    {
      LeftUpdate(s.timers, a.timer, Act(s, a).value.timers[a.timer]);
      assert Act(s, a).value.timers == s.timers[a.timer := Act(s, a).value.timers[a.timer]];
    }
  }
}
