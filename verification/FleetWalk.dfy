/** The fleet projection (internal/predictor/aggregate.go): an hourly walk of one
    account's windows under flat rates, percent gates and reset refills.
    Instants are nanoseconds. */
module FleetWalk {
  import opened Common

  datatype Unit = Usd | Pct

  datatype Window = Window(name: string, rem: real, rate: real, cap: real, unit: Unit, resets: Option<int>)

  /** Usable dollars and whether the account serves. */
  datatype Standing = Standing(usd: real, active: bool)

  const HOUR := 3_600_000_000_000
  const MAX_STEPS := 24 * 31
  const INCLUDED := "included"

  function Max(a: real, b: real): real { if a >= b then a else b }

  function Hours(span: int): real { span as real / HOUR as real }

  function Burnt(rate: real, hours: real): real { rate * hours }

  // ---- one step ----

  predicate GatesOpen(wins: seq<Window>, eps: real) {
    forall i :: 0 <= i < |wins| && wins[i].unit.Pct? ==> wins[i].rem > eps
  }

  function Burn(w: Window, hours: real): Window {
    if w.rem > 0.0 && w.rate > 0.0 then w.(rem := Max(0.0, w.rem - Burnt(w.rate, hours))) else w
  }

  predicate Resets(w: Window, stamp: int) { w.resets.Some? && stamp > w.resets.value }

  function Refill(w: Window, stamp: int): Window {
    if !Resets(w, stamp) then w
    else if w.cap > 0.0 then w.(rem := w.cap) else if w.unit.Pct? then w.(rem := 100.0) else w
  }

  function BurnAll(wins: seq<Window>, hours: real): (r: seq<Window>) { seq(|wins|, i requires 0 <= i < |wins| => Burn(wins[i], hours)) }

  function RefillAll(wins: seq<Window>, stamp: int): (r: seq<Window>) {
    seq(|wins|, i requires 0 <= i < |wins| => Refill(wins[i], stamp))
  }

  function Step(wins: seq<Window>, ts: int, stamp: int, eps: real): seq<Window> {
    RefillAll(if GatesOpen(wins, eps) then BurnAll(wins, Hours(stamp - ts)) else wins, stamp)
  }

  function NextStamp(ts: int, until: int): int { if ts + HOUR > until then until else ts + HOUR }

  /** The walk from `ts`, at most `steps` more steps. */
  function Walk(wins: seq<Window>, ts: int, until: int, steps: nat, eps: real): seq<Window>
    decreases steps
  {
    if steps == 0 || ts >= until then wins
    else Walk(Step(wins, ts, NextStamp(ts, until), eps), NextStamp(ts, until), until, steps - 1, eps)
  }

  function UsdOf(w: Window): real { if w.unit.Usd? then Max(0.0, w.rem) else 0.0 }

  function UsdTotal(wins: seq<Window>): real {
    if wins == [] then 0.0 else UsdTotal(wins[..|wins| - 1]) + UsdOf(wins[|wins| - 1])
  }

  predicate Serves(w: Window, eps: real) {
    (w.unit.Usd? && w.name == INCLUDED ==> w.rem > eps) && (w.unit.Pct? ==> w.rem > eps)
  }

  function Snapshot(wins: seq<Window>, eps: real): Standing {
    Standing(UsdTotal(wins), forall i :: 0 <= i < |wins| ==> Serves(wins[i], eps))
  }

  /** Simulation windows: rates are floored at zero. */
  function Seeded(wins: seq<Window>): (r: seq<Window>) {
    seq(|wins|, i requires 0 <= i < |wins| => wins[i].(rate := Max(0.0, wins[i].rate)))
  }

  function AccountStateAt(account: seq<Window>, until: int, now: int, eps: real): Standing {
    Snapshot(if until <= now then Seeded(account) else Walk(Seeded(account), now, until, MAX_STEPS, eps), eps)
  }

  // ---- the from-scratch walk is one incremental pass ----

  /** The windows after `k` whole hours, one step from the hour before. */
  function OnePass(wins: seq<Window>, now: int, k: nat, eps: real): seq<Window> {
    if k == 0 then wins else Step(OnePass(wins, now, k - 1, eps), now + (k - 1) * HOUR, now + k * HOUR, eps)
  }

  lemma {:induction false} OnePassShifts(wins: seq<Window>, now: int, k: nat, eps: real)
    ensures OnePass(wins, now, k + 1, eps) == OnePass(Step(wins, now, now + HOUR, eps), now + HOUR, k, eps)
  {
    hide Step;
    if k == 0 {
    } else {
      OnePassShifts(wins, now, k - 1, eps);
      assert now + HOUR + (k - 1) * HOUR == now + k * HOUR;
    }
  }

  lemma {:induction false} WalkIsOnePass(wins: seq<Window>, now: int, k: nat, steps: nat, eps: real)
    ensures Walk(wins, now, now + k * HOUR, steps, eps) == OnePass(wins, now, if k <= steps then k else steps, eps)
    decreases steps
  {
    hide Step;
    if steps > 0 && k > 0 {
      assert k * HOUR >= HOUR;
      assert NextStamp(now, now + k * HOUR) == now + HOUR;
      assert now + k * HOUR == (now + HOUR) + (k - 1) * HOUR;
      var next := Step(wins, now, now + HOUR, eps);
      WalkIsOnePass(next, now + HOUR, k - 1, steps - 1, eps);
      OnePassShifts(wins, now, (if k <= steps then k else steps) - 1, eps);
    }
  }

  /** Every hourly projection point, computed from scratch, is the next state of one
      incremental pass; past the step bound the walk stands still. */
  lemma {:induction false} ProjectionIsOnePass(account: seq<Window>, now: int, k: nat, eps: real)
    ensures AccountStateAt(account, now + k * HOUR, now, eps)
            == Snapshot(OnePass(Seeded(account), now, if k <= MAX_STEPS then k else MAX_STEPS, eps), eps)
  {
    hide Snapshot, Step;
    if k > 0 {
      assert k * HOUR > 0;
      WalkIsOnePass(Seeded(account), now, k, MAX_STEPS, eps);
    } else {
      assert k * HOUR == 0;
    }
  }

  // ---- conservation ----

  /** The most a window can hold: what it started with or its cap. */
  function Top(w: Window): real { Max(0.0, Max(w.rem, w.cap)) }

  function TopTotal(wins: seq<Window>): real {
    if wins == [] then 0.0
    else TopTotal(wins[..|wins| - 1]) + (if wins[|wins| - 1].unit.Usd? then Top(wins[|wins| - 1]) else 0.0)
  }

  /** `w` is a later state of `w0` within its bounds. */
  ghost predicate Within(w: Window, w0: Window) {
    && w == w0.(rem := w.rem) && (w.unit.Usd? ==> w.rem <= Top(w0)) && (w0.rem >= 0.0 && w0.unit.Usd? ==> w.rem >= 0.0)
  }

  ghost predicate AllWithin(wins: seq<Window>, start: seq<Window>) {
    |wins| == |start| && forall i :: 0 <= i < |wins| ==> Within(wins[i], start[i])
  }

  lemma {:induction false} BurntIsNotNegative(rate: real, hours: real)
    requires rate >= 0.0 && hours >= 0.0
    ensures Burnt(rate, hours) >= 0.0
  {
  }

  lemma {:induction false} HoursPositive(span: int)
    requires span >= 0
    ensures Hours(span) >= 0.0
  {
  }

  lemma {:induction false} StepWithin(w: Window, w0: Window, hours: real, stamp: int)
    requires Within(w, w0) && hours >= 0.0
    ensures Within(Refill(Burn(w, hours), stamp), w0) && Within(Refill(w, stamp), w0)
  {
    if w.rate > 0.0 {
      BurntIsNotNegative(w.rate, hours);
    }
    hide Burnt;
  }

  lemma {:induction false} WalkWithin(wins: seq<Window>, start: seq<Window>, ts: int, until: int, steps: nat, eps: real)
    requires AllWithin(wins, start)
    ensures AllWithin(Walk(wins, ts, until, steps, eps), start)
    decreases steps
  {
    hide Within, Refill, Burn, Hours;
    if steps > 0 && ts < until {
      var stamp := NextStamp(ts, until);
      HoursPositive(stamp - ts);
      var next := Step(wins, ts, stamp, eps);
      forall i | 0 <= i < |wins|
        ensures Within(next[i], start[i])
      {
        StepWithin(wins[i], start[i], Hours(stamp - ts), stamp);
      }
      WalkWithin(next, start, stamp, until, steps - 1, eps);
    }
  }

  lemma {:induction false} UsdWithin(wins: seq<Window>, start: seq<Window>)
    requires AllWithin(wins, start)
    ensures 0.0 <= UsdTotal(wins) <= TopTotal(start)
  {
    if wins == [] {
    } else {
      UsdWithin(wins[..|wins| - 1], start[..|start| - 1]);
      assert Within(wins[|wins| - 1], start[|start| - 1]);
    }
  }

  lemma {:induction false} SeedKeepsTop(wins: seq<Window>)
    ensures TopTotal(Seeded(wins)) == TopTotal(wins)
  {
    if wins == [] {
    } else {
      SeedKeepsTop(wins[..|wins| - 1]);
      assert Seeded(wins)[..|wins| - 1] == Seeded(wins[..|wins| - 1]);
    }
  }

  /** At every instant the usable dollars lie between zero and what the windows can
      hold, whatever the rates, gates and resets. */
  lemma {:induction false} UsableIsBounded(account: seq<Window>, until: int, now: int, eps: real)
    ensures 0.0 <= AccountStateAt(account, until, now, eps).usd <= TopTotal(account)
  {
    hide Walk, UsdTotal, TopTotal;
    var start := Seeded(account);
    SeedKeepsTop(account);
    assert AllWithin(start, start);
    WalkWithin(start, start, now, until, MAX_STEPS, eps);
    UsdWithin(start, start);
    UsdWithin(Walk(start, now, until, MAX_STEPS, eps), start);
  }

  // ---- an empty gate freezes the account ----

  /** A percent window at empty that no stamp up to `until` resets. */
  ghost predicate ShutUntil(wins: seq<Window>, g: nat, until: int, eps: real) {
    g < |wins| && wins[g].unit.Pct? && wins[g].rem <= eps && !Resets(wins[g], until)
  }

  function LastStamp(ts: int, until: int, steps: nat): int
    decreases steps
  {
    if steps == 0 || ts >= until then ts else LastStamp(NextStamp(ts, until), until, steps - 1)
  }

  lemma {:induction false} LastStampBounds(ts: int, until: int, steps: nat)
    requires ts <= until
    ensures ts <= LastStamp(ts, until, steps) <= until
    ensures steps > 0 && ts < until ==> NextStamp(ts, until) <= LastStamp(ts, until, steps)
    decreases steps
  {
    if steps > 0 && ts < until {
      LastStampBounds(NextStamp(ts, until), until, steps - 1);
    }
  }

  lemma {:induction false} RefillTwice(wins: seq<Window>, earlier: int, later: int)
    requires earlier <= later
    ensures RefillAll(RefillAll(wins, earlier), later) == RefillAll(wins, later)
  {
  }

  /** Once a percent gate is empty with no reset before the target, no window burns
      again: each is as it was, or refilled by its own reset; and the account is dark. */
  lemma {:induction false} ShutGateFreezes(wins: seq<Window>, g: nat, ts: int, until: int, steps: nat, eps: real)
    requires ShutUntil(wins, g, until, eps) && ts < until && steps > 0
    ensures Walk(wins, ts, until, steps, eps) == RefillAll(wins, LastStamp(ts, until, steps))
    ensures !Snapshot(Walk(wins, ts, until, steps, eps), eps).active
    decreases steps
  {
    hide Snapshot, RefillAll, LastStamp;
    var stamp := NextStamp(ts, until);
    var next := Step(wins, ts, stamp, eps);
    assert next == RefillAll(wins, stamp);
    ShutStays(wins, g, stamp, until, eps);
    LastStampStep(ts, until, steps);
    if steps > 1 && stamp < until {
      ShutGateFreezes(next, g, stamp, until, steps - 1, eps);
      LastStampBounds(ts, until, steps);
      RefillTwice(wins, stamp, LastStamp(ts, until, steps));
    } else {
      LastStampStep(stamp, until, steps - 1);
      ShutIsDark(next, g, until, eps);
    }
  }

  lemma {:induction false} LastStampStep(ts: int, until: int, steps: nat)
    ensures LastStamp(ts, until, steps) == if steps == 0 || ts >= until then ts else LastStamp(NextStamp(ts, until), until, steps - 1)
  {
  }

  lemma {:induction false} ShutStays(wins: seq<Window>, g: nat, stamp: int, until: int, eps: real)
    requires ShutUntil(wins, g, until, eps) && stamp <= until
    ensures ShutUntil(RefillAll(wins, stamp), g, until, eps)
  {
  }

  lemma {:induction false} ShutIsDark(wins: seq<Window>, g: nat, until: int, eps: real)
    requires ShutUntil(wins, g, until, eps)
    ensures !Snapshot(wins, eps).active
  {
    assert !Serves(wins[g], eps);
  }

  // ---- no gate, no reset: a straight line ----

  lemma {:induction false} BurnTwice(w: Window, a: real, b: real)
    requires a >= 0.0 && b >= 0.0
    ensures Burn(Burn(w, a), b) == Burn(w, a + b)
  {
    assert Burnt(w.rate, a + b) == Burnt(w.rate, a) + Burnt(w.rate, b);
    if w.rate > 0.0 {
      BurntIsNotNegative(w.rate, a);
      BurntIsNotNegative(w.rate, b);
    }
    hide Burnt;
  }

  lemma {:induction false} HoursAdd(a: int, b: int)
    ensures Hours(a) + Hours(b) == Hours(a + b)
  {
  }

  /** Neither a percent meter nor a reset up to `until`. */
  ghost predicate Plain(wins: seq<Window>, until: int) {
    forall i :: 0 <= i < |wins| ==> wins[i].unit.Usd? && !Resets(wins[i], until)
  }

  lemma {:induction false} PlainStep(wins: seq<Window>, ts: int, stamp: int, until: int, eps: real)
    requires Plain(wins, until) && stamp <= until
    ensures Step(wins, ts, stamp, eps) == BurnAll(wins, Hours(stamp - ts)) && Plain(BurnAll(wins, Hours(stamp - ts)), until)
  {
    hide Hours, Burnt;
  }

  lemma {:induction false} BurnAllTwice(wins: seq<Window>, a: real, b: real)
    requires a >= 0.0 && b >= 0.0
    ensures BurnAll(BurnAll(wins, a), b) == BurnAll(wins, a + b)
  {
    hide Burn;
    forall i | 0 <= i < |wins|
      ensures Burn(Burn(wins[i], a), b) == Burn(wins[i], a + b)
    {
      BurnTwice(wins[i], a, b);
    }
  }

  /** The stepped walk of an account without gates or resets is the straight line at
      its flat rates, to the exact target instant and not just on the hour. */
  lemma {:induction false} PlainWalkIsLinear(wins: seq<Window>, ts: int, until: int, steps: nat, eps: real)
    requires Plain(wins, until) && ts < until <= ts + steps * HOUR
    ensures Walk(wins, ts, until, steps, eps) == BurnAll(wins, Hours(until - ts))
    decreases steps
  {
    hide Step, BurnAll, Hours, Plain;
    var stamp := NextStamp(ts, until);
    PlainStep(wins, ts, stamp, until, eps);
    var next := BurnAll(wins, Hours(stamp - ts));
    if stamp < until {
      assert until <= stamp + (steps - 1) * HOUR;
      PlainWalkIsLinear(next, stamp, until, steps - 1, eps);
      HoursPositive(stamp - ts);
      HoursPositive(until - stamp);
      HoursAdd(stamp - ts, until - stamp);
      BurnAllTwice(wins, Hours(stamp - ts), Hours(until - stamp));
    }
  }

  // ---- the walk does not depend on the order of the windows ----

  lemma {:induction false} Without<T>(q: seq<T>, j: nat)
    requires j < |q|
    ensures multiset(q) == multiset(q[..j] + q[j + 1..]) + multiset{q[j]}
  {
    assert q == q[..j] + [q[j]] + q[j + 1..];
  }

  /** Where the last element of `p` sits in `q`, and `q` without it. */
  lemma {:induction false} Partner(p: seq<Window>, q: seq<Window>) returns (j: nat)
    requires p != [] && multiset(p) == multiset(q)
    ensures j < |q| && q[j] == p[|p| - 1]
    ensures multiset(p[..|p| - 1]) == multiset(q[..j] + q[j + 1..])
  {
    assert p == p[..|p| - 1] + [p[|p| - 1]];
    assert multiset(p[..|p| - 1]) == multiset(p) - multiset{p[|p| - 1]};
    assert p[|p| - 1] in multiset(q);
    j :| 0 <= j < |q| && q[j] == p[|p| - 1];
    Without(q, j);
    assert multiset(q[..j] + q[j + 1..]) == multiset(q) - multiset{q[j]};
  }

  lemma {:induction false} UsdConcat(a: seq<Window>, b: seq<Window>)
    ensures UsdTotal(a + b) == UsdTotal(a) + UsdTotal(b)
    decreases |b|
  {
    if b == [] {
      assert a + b == a;
    } else {
      UsdConcat(a, b[..|b| - 1]);
      assert (a + b)[..|a + b| - 1] == a + b[..|b| - 1];
    }
  }

  lemma {:induction false} UsdAnyOrder(p: seq<Window>, q: seq<Window>)
    requires multiset(p) == multiset(q)
    ensures UsdTotal(p) == UsdTotal(q)
    decreases |p|
  {
    if p == [] {
      assert |multiset(q)| == 0;
      assert q == [];
    } else {
      var j := Partner(p, q);
      UsdAnyOrder(p[..|p| - 1], q[..j] + q[j + 1..]);
      UsdConcat(q[..j], q[j + 1..]);
      UsdConcat(q[..j], [q[j]]);
      UsdConcat(q[..j] + [q[j]], q[j + 1..]);
      assert q == q[..j] + [q[j]] + q[j + 1..];
      assert UsdTotal([q[j]]) == UsdOf(q[j]) by {
        assert [q[j]][..0] == [];
      }
    }
  }

  function Each(f: Window -> Window, wins: seq<Window>): (r: seq<Window>) { seq(|wins|, i requires 0 <= i < |wins| => f(wins[i])) }

  lemma {:induction false} EachAnyOrder(f: Window -> Window, p: seq<Window>, q: seq<Window>)
    requires multiset(p) == multiset(q)
    ensures multiset(Each(f, p)) == multiset(Each(f, q))
    decreases |p|
  {
    if p == [] {
      assert |multiset(q)| == 0;
      assert q == [];
    } else {
      var j := Partner(p, q);
      var rest := q[..j] + q[j + 1..];
      EachAnyOrder(f, p[..|p| - 1], rest);
      assert Each(f, p) == Each(f, p[..|p| - 1]) + [f(p[|p| - 1])];
      assert Each(f, rest) == Each(f, q)[..j] + Each(f, q)[j + 1..];
      Without(Each(f, q), j);
    }
  }

  lemma {:induction false} GatesAnyOrder(p: seq<Window>, q: seq<Window>, eps: real)
    requires multiset(p) == multiset(q)
    ensures GatesOpen(p, eps) ==> GatesOpen(q, eps)
    ensures Snapshot(p, eps).active ==> Snapshot(q, eps).active
  {
    forall i | 0 <= i < |q|
      ensures exists k :: 0 <= k < |p| && p[k] == q[i]
    {
      assert q[i] in multiset(q);
      assert q[i] in p;
    }
  }

  lemma {:induction false} StepAnyOrder(p: seq<Window>, q: seq<Window>, ts: int, stamp: int, eps: real)
    requires multiset(p) == multiset(q)
    ensures multiset(Step(p, ts, stamp, eps)) == multiset(Step(q, ts, stamp, eps))
  {
    hide Burn, Refill, Snapshot;
    GatesAnyOrder(p, q, eps);
    GatesAnyOrder(q, p, eps);
    var burn := (w: Window) => Burn(w, Hours(stamp - ts));
    var refill := (w: Window) => Refill(w, stamp);
    EachAnyOrder(burn, p, q);
    assert BurnAll(p, Hours(stamp - ts)) == Each(burn, p) && BurnAll(q, Hours(stamp - ts)) == Each(burn, q);
    var a := if GatesOpen(p, eps) then BurnAll(p, Hours(stamp - ts)) else p;
    var b := if GatesOpen(p, eps) then BurnAll(q, Hours(stamp - ts)) else q;
    EachAnyOrder(refill, a, b);
    assert RefillAll(a, stamp) == Each(refill, a) && RefillAll(b, stamp) == Each(refill, b);
  }

  lemma {:induction false} WalkAnyOrder(p: seq<Window>, q: seq<Window>, ts: int, until: int, steps: nat, eps: real)
    requires multiset(p) == multiset(q)
    ensures multiset(Walk(p, ts, until, steps, eps)) == multiset(Walk(q, ts, until, steps, eps))
    decreases steps
  {
    hide Step;
    if steps > 0 && ts < until {
      var stamp := NextStamp(ts, until);
      StepAnyOrder(p, q, ts, stamp, eps);
      WalkAnyOrder(Step(p, ts, stamp, eps), Step(q, ts, stamp, eps), stamp, until, steps - 1, eps);
    }
  }

  /** Whatever order the window map is iterated in, the account comes out the same. */
  lemma {:induction false} AccountAnyOrder(p: seq<Window>, q: seq<Window>, until: int, now: int, eps: real)
    requires multiset(p) == multiset(q)
    ensures AccountStateAt(p, until, now, eps) == AccountStateAt(q, until, now, eps)
  {
    hide Walk, UsdTotal, Serves;
    var seed := (w: Window) => w.(rate := Max(0.0, w.rate));
    EachAnyOrder(seed, p, q);
    assert Seeded(p) == Each(seed, p) && Seeded(q) == Each(seed, q);
    WalkAnyOrder(Seeded(p), Seeded(q), now, until, MAX_STEPS, eps);
    var a := if until <= now then Seeded(p) else Walk(Seeded(p), now, until, MAX_STEPS, eps);
    var b := if until <= now then Seeded(q) else Walk(Seeded(q), now, until, MAX_STEPS, eps);
    UsdAnyOrder(a, b);
    GatesAnyOrder(a, b, eps);
    GatesAnyOrder(b, a, eps);
  }

  // ---- the fleet ----

  function FleetUsd(accounts: seq<seq<Window>>, until: int, now: int, eps: real): real {
    if accounts == [] then 0.0
    else FleetUsd(accounts[..|accounts| - 1], until, now, eps) + AccountStateAt(accounts[|accounts| - 1], until, now, eps).usd
  }

  function FleetActive(accounts: seq<seq<Window>>, until: int, now: int, eps: real): nat {
    if accounts == [] then 0
    else
      FleetActive(accounts[..|accounts| - 1], until, now, eps)
      + (if AccountStateAt(accounts[|accounts| - 1], until, now, eps).active then 1 else 0)
  }

  function FleetTop(accounts: seq<seq<Window>>): real {
    if accounts == [] then 0.0 else FleetTop(accounts[..|accounts| - 1]) + TopTotal(accounts[|accounts| - 1])
  }

  /** Every projection point of the fleet is within its capacity. */
  lemma {:induction false} FleetIsBounded(accounts: seq<seq<Window>>, until: int, now: int, eps: real)
    ensures 0.0 <= FleetUsd(accounts, until, now, eps) <= FleetTop(accounts)
    ensures FleetActive(accounts, until, now, eps) <= |accounts|
  {
    hide AccountStateAt, TopTotal;
    if accounts == [] {
    } else {
      FleetIsBounded(accounts[..|accounts| - 1], until, now, eps);
      UsableIsBounded(accounts[|accounts| - 1], until, now, eps);
    }
  }

  // ---- as the program runs it ----

  method GatesOpenNow(wins: array<Window>, eps: real) returns (open: bool)
    ensures open == GatesOpen(wins[..], eps)
  {
    for i := 0 to wins.Length
      invariant forall k :: 0 <= k < i && wins[k].unit.Pct? ==> wins[k].rem > eps
    {
      if wins[i].unit.Pct? && wins[i].rem <= eps {
        return false;
      }
    }
    open := true;
  }

  method BurnInPlace(wins: array<Window>, hours: real)
    modifies wins
    ensures wins[..] == BurnAll(old(wins[..]), hours)
  {
    ghost var was := wins[..];
    for i := 0 to wins.Length
      invariant forall k :: 0 <= k < i ==> wins[k] == Burn(was[k], hours)
      invariant forall k :: i <= k < wins.Length ==> wins[k] == was[k]
    {
      var w := wins[i];
      if w.rem > 0.0 && w.rate > 0.0 {
        wins[i] := w.(rem := Max(0.0, w.rem - Burnt(w.rate, hours)));
      }
    }
  }

  method RefillInPlace(wins: array<Window>, stamp: int)
    modifies wins
    ensures wins[..] == RefillAll(old(wins[..]), stamp)
  {
    ghost var was := wins[..];
    for i := 0 to wins.Length
      invariant forall k :: 0 <= k < i ==> wins[k] == Refill(was[k], stamp)
      invariant forall k :: i <= k < wins.Length ==> wins[k] == was[k]
    {
      var w := wins[i];
      if w.resets.Some? && stamp > w.resets.value {
        if w.cap > 0.0 {
          wins[i] := w.(rem := w.cap);
        } else if w.unit.Pct? {
          wins[i] := w.(rem := 100.0);
        }
      }
    }
  }

  method TakeSnapshot(wins: array<Window>, eps: real) returns (usd: real, active: bool)
    ensures Standing(usd, active) == Snapshot(wins[..], eps)
  {
    usd, active := 0.0, true;
    for i := 0 to wins.Length
      invariant usd == UsdTotal(wins[..i])
      invariant active <==> forall k :: 0 <= k < i ==> Serves(wins[k], eps)
    {
      assert wins[..i + 1][..i] == wins[..i];
      if wins[i].unit.Usd? {
        usd := usd + Max(0.0, wins[i].rem);
        if wins[i].name == INCLUDED && wins[i].rem <= eps {
          active := false;
        }
      } else if wins[i].rem <= eps {
        active := false;
      }
    }
    assert wins[..wins.Length] == wins[..];
  }

  /** The walk over the account's windows, in the order the map yields them. */
  method AccountState(account: seq<Window>, until: int, now: int, eps: real) returns (usd: real, active: bool)
    ensures Standing(usd, active) == AccountStateAt(account, until, now, eps)
  {
    hide Burn, Refill, GatesOpen, Hours, Snapshot;
    var wins := new Window[|account|](i requires 0 <= i < |account| => account[i].(rate := Max(0.0, account[i].rate)));
    assert wins[..] == Seeded(account);
    if until <= now {
      usd, active := TakeSnapshot(wins, eps);
      return;
    }
    var ts, step := now, 0;
    while step < MAX_STEPS && ts < until
      invariant 0 <= step <= MAX_STEPS
      invariant Walk(wins[..], ts, until, MAX_STEPS - step, eps) == Walk(Seeded(account), now, until, MAX_STEPS, eps)
    {
      var stamp := ts + HOUR;
      if stamp > until {
        stamp := until;
      }
      ghost var before := wins[..];
      var open := GatesOpenNow(wins, eps);
      if open {
        BurnInPlace(wins, Hours(stamp - ts));
      }
      RefillInPlace(wins, stamp);
      assert wins[..] == Step(before, ts, stamp, eps);
      ts := stamp;
      step := step + 1;
    }
    usd, active := TakeSnapshot(wins, eps);
  }

  /** The hourly grid of the fleet view: one from-scratch walk per account and step. */
  method Project(accounts: seq<seq<Window>>, now: int, steps: nat, eps: real) returns (usd: array<real>, active: array<nat>)
    ensures usd.Length == steps && active.Length == steps
    ensures forall s :: 0 <= s < steps ==> usd[s] == FleetUsd(accounts, now + (s + 1) * HOUR, now, eps)
    ensures forall s :: 0 <= s < steps ==> active[s] == FleetActive(accounts, now + (s + 1) * HOUR, now, eps)
  {
    hide AccountStateAt;
    usd := new real[steps](i => 0.0);
    active := new nat[steps](i => 0);
    for a := 0 to |accounts|
      invariant forall s :: 0 <= s < steps ==> usd[s] == FleetUsd(accounts[..a], now + (s + 1) * HOUR, now, eps)
      invariant forall s :: 0 <= s < steps ==> active[s] == FleetActive(accounts[..a], now + (s + 1) * HOUR, now, eps)
    {
      assert accounts[..a + 1][..a] == accounts[..a];
      for s := 0 to steps
        invariant forall k :: s <= k < steps ==> usd[k] == FleetUsd(accounts[..a], now + (k + 1) * HOUR, now, eps)
        invariant forall k :: s <= k < steps ==> active[k] == FleetActive(accounts[..a], now + (k + 1) * HOUR, now, eps)
        invariant forall k :: 0 <= k < s ==> usd[k] == FleetUsd(accounts[..a + 1], now + (k + 1) * HOUR, now, eps)
        invariant forall k :: 0 <= k < s ==> active[k] == FleetActive(accounts[..a + 1], now + (k + 1) * HOUR, now, eps)
      {
        var left, serving := AccountState(accounts[a], now + (s + 1) * HOUR, now, eps);
        usd[s] := usd[s] + left;
        if serving {
          active[s] := active[s] + 1;
        }
      }
    }
    assert accounts[..|accounts|] == accounts;
  }
}
