/** What the fleet projection comes to, hour by hour, in closed form: a window past
    its reset is full, any other has burned its rate for every hour in which no
    percent meter of its account was empty. */
module FleetHours {
  import opened Common
  import opened FleetWalk

  /** The window is refilled by hour `k` and from then on. */
  predicate Refilled(w: Window, now: int, k: nat) {
    && k > 0 && w.resets.Some? && now + k * 3_600_000_000_000 > w.resets.value
    && (w.cap > 0.0 || w.unit.Pct?)
  }

  function Full(w: Window): real { if w.cap > 0.0 then w.cap else 100.0 }

  /** What is left of a window after `hours` hours of burning. */
  function Drained(w: Window, hours: nat): real {
    var burned := if w.rate > 0.0 then w.rate * hours as real else 0.0;
    if w.rem <= 0.0 then w.rem else if burned < w.rem then w.rem - burned else 0.0
  }

  /** What window `i` of the account holds at hour `k`. */
  ghost function RemAt(account: seq<Window>, now: int, k: nat, eps: real, i: nat): real
    requires i < |account|
    decreases k, 1
  {
    if Refilled(account[i], now, k) then Full(account[i]) else Drained(account[i], OpenHours(account, now, k, eps))
  }

  /** The hours before hour `k` that started with no percent meter at empty. */
  ghost function OpenHours(account: seq<Window>, now: int, k: nat, eps: real): nat
    decreases k, 0
  {
    if k == 0 then 0
    else
      var open := forall i :: 0 <= i < |account| && account[i].unit.Pct? ==> RemAt(account, now, k - 1, eps, i) > eps;
      OpenHours(account, now, k - 1, eps) + (if open then 1 else 0)
  }

  /** The usable dollars of the first `n` windows. */
  ghost function UsdAt(account: seq<Window>, now: int, k: nat, eps: real, n: nat): real
    requires n <= |account|
  {
    if n == 0 then 0.0
    else
      var left := RemAt(account, now, k, eps, n - 1);
      UsdAt(account, now, k, eps, n - 1) + (if account[n - 1].unit.Usd? && left > 0.0 then left else 0.0)
  }

  /** No percent meter and no included balance is at empty. */
  ghost predicate ServingAt(account: seq<Window>, now: int, k: nat, eps: real) {
    forall i :: 0 <= i < |account| && (account[i].unit.Pct? || account[i].name == "included") ==> RemAt(account, now, k, eps, i) > eps
  }

  // ---- one hour ----

  lemma {:induction false} HourIsOne(ts: int)
    ensures Hours((ts + HOUR) - ts) == 1.0
  {
  }

  lemma {:induction false} DrainedOnce(w: Window, hours: nat)
    ensures var v := w.(rem := Drained(w, hours), rate := Max(0.0, w.rate));
            Burn(v, 1.0) == v.(rem := Drained(w, hours + 1))
  {
    var r, n := w.rate, hours as real;
    assert r * (n + 1.0) == r * n + r;
    assert Burnt(r, 1.0) == r;
    if r > 0.0 {
      assert r * n >= 0.0;
    }
  }

  /** The window at an hour, from its account. */
  ghost predicate Follows(w: Window, account: seq<Window>, now: int, k: nat, eps: real, i: nat)
    requires i < |account|
  {
    w == account[i].(rem := RemAt(account, now, k, eps, i), rate := Max(0.0, account[i].rate))
  }

  lemma {:induction false} OneHour(account: seq<Window>, now: int, k: nat, eps: real, i: nat, w: Window, open: bool)
    requires i < |account| && Follows(w, account, now, k, eps, i)
    requires open <==> OpenHours(account, now, k + 1, eps) == OpenHours(account, now, k, eps) + 1
    requires !open ==> OpenHours(account, now, k + 1, eps) == OpenHours(account, now, k, eps)
    ensures Follows(Refill(if open then Burn(w, 1.0) else w, now + (k + 1) * HOUR), account, now, k + 1, eps, i)
  {
    hide OpenHours, Drained, Burn;
    var hours := OpenHours(account, now, k, eps);
    DrainedOnce(account[i], hours);
    BurnKeeps(w);
  }

  lemma {:induction false} BurnKeeps(w: Window)
    ensures Burn(w, 1.0) == w.(rem := Burn(w, 1.0).rem)
  {
  }

  lemma {:induction false} HourByHour(account: seq<Window>, now: int, k: nat, eps: real)
    ensures var wins := OnePass(Seeded(account), now, k, eps);
            |wins| == |account| && forall i: nat :: i < |account| ==> Follows(wins[i], account, now, k, eps, i)
  {
    if k == 0 {
      forall i: nat | i < |account|
        ensures Follows(Seeded(account)[i], account, now, 0, eps, i)
      {
        StartsFull(account, now, eps, i);
      }
    } else {
      hide Follows, Burn, Refill, Hours;
      HourByHour(account, now, k - 1, eps);
      var wins := OnePass(Seeded(account), now, k - 1, eps);
      var open := GatesOpen(wins, eps);
      HourIsOne(now + (k - 1) * HOUR);
      assert now + k * HOUR == now + (k - 1) * HOUR + HOUR;
      OpenCounts(account, now, k - 1, eps, wins);
      forall i: nat | i < |account|
        ensures Follows(OnePass(Seeded(account), now, k, eps)[i], account, now, k, eps, i)
      {
        OneHour(account, now, k - 1, eps, i, wins[i], open);
      }
    }
  }

  lemma {:induction false} StartsFull(account: seq<Window>, now: int, eps: real, i: nat)
    requires i < |account|
    ensures Follows(Seeded(account)[i], account, now, 0, eps, i)
  {
  }

  lemma {:induction false} OpenCounts(account: seq<Window>, now: int, k: nat, eps: real, wins: seq<Window>)
    requires |wins| == |account| && forall i: nat :: i < |account| ==> Follows(wins[i], account, now, k, eps, i)
    ensures OpenHours(account, now, k + 1, eps) == OpenHours(account, now, k, eps) + (if GatesOpen(wins, eps) then 1 else 0)
  {
    hide RemAt;
    assert forall i: nat :: i < |account| ==> wins[i].unit == account[i].unit && wins[i].rem == RemAt(account, now, k, eps, i);
  }

  // ---- the account and the fleet ----

  lemma {:induction false} UsdByWindow(account: seq<Window>, now: int, k: nat, eps: real, wins: seq<Window>, n: nat)
    requires n <= |account| == |wins| && forall i: nat :: i < |account| ==> Follows(wins[i], account, now, k, eps, i)
    ensures UsdTotal(wins[..n]) == UsdAt(account, now, k, eps, n)
  {
    hide RemAt;
    if n == 0 {
    } else {
      UsdByWindow(account, now, k, eps, wins, n - 1);
      assert wins[..n][..n - 1] == wins[..n - 1] && wins[..n][n - 1] == wins[n - 1];
      assert Follows(wins[n - 1], account, now, k, eps, n - 1);
    }
  }

  /** The walk to hour `k`, for any windows, gates and resets, finds exactly the
      dollars the closed form leaves and whether the account serves; after 31 days
      of hours it stands still. */
  lemma {:induction false} AccountAtHour(account: seq<Window>, now: int, k: nat, eps: real)
    ensures var hour := if k <= 744 then k else 744;
            var standing := AccountStateAt(account, now + k * 3_600_000_000_000, now, eps);
            standing.usd == UsdAt(account, now, hour, eps, |account|) && (standing.active <==> ServingAt(account, now, hour, eps))
  {
    hide RemAt, OnePass, UsdTotal, UsdAt, AccountStateAt;
    var hour := if k <= 744 then k else 744;
    ProjectionIsOnePass(account, now, k, eps);
    HourByHour(account, now, hour, eps);
    var wins := OnePass(Seeded(account), now, hour, eps);
    UsdByWindow(account, now, hour, eps, wins, |account|);
    assert wins[..|account|] == wins;
    forall i: nat | i < |account|
      ensures Serves(wins[i], eps) <==> ((account[i].unit.Pct? || account[i].name == "included") ==> RemAt(account, now, hour, eps, i) > eps)
    {
      assert Follows(wins[i], account, now, hour, eps, i);
    }
  }

  /** The fleet adds up its accounts, whatever their order and grouping. */
  lemma {:induction false} FleetAddsUp(a: seq<seq<Window>>, b: seq<seq<Window>>, account: seq<Window>, until: int, now: int, eps: real)
    ensures FleetUsd(a + b, until, now, eps) == FleetUsd(a, until, now, eps) + FleetUsd(b, until, now, eps)
    ensures FleetActive(a + b, until, now, eps) == FleetActive(a, until, now, eps) + FleetActive(b, until, now, eps)
    ensures FleetUsd([account], until, now, eps) == AccountStateAt(account, until, now, eps).usd
    ensures FleetActive([account], until, now, eps) == if AccountStateAt(account, until, now, eps).active then 1 else 0
    decreases |b|
  {
    hide AccountStateAt;
    assert [account][..0] == [];
    if b == [] {
      assert a + b == a;
    } else {
      FleetAddsUp(a, b[..|b| - 1], account, until, now, eps);
      assert (a + b)[..|a + b| - 1] == a + b[..|b| - 1];
    }
  }
}
