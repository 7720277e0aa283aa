// The playback clock: which queue item is on air at a given millisecond, and how far in.
module PlaybackClock {

  const MAX64 := 0x7fff_ffff_ffff_ffff

  // Two's complement wrap-around of Go's int64.
  function Wrap64(x: int): int {
    (x + MAX64 + 1) % (2 * (MAX64 + 1)) - MAX64 - 1
  }

  predicate IsInt64(x: int) { -MAX64 - 1 <= x <= MAX64 }

  // Go's %: the remainder takes the sign of the dividend.
  function TruncMod(a: int, c: int): int
    requires c > 0
  {
    if a >= 0 then a % c else -((-a) % c)
  }

  // A remainder of a with the sign of a.
  lemma TruncModIs(a: int, c: int)
    requires c > 0
    ensures -c < TruncMod(a, c) < c && (a >= 0 ==> TruncMod(a, c) >= 0) && (a <= 0 ==> TruncMod(a, c) <= 0)
    ensures exists q :: a == q * c + TruncMod(a, c)
  {
    if a >= 0 {
      assert a == a / c * c + TruncMod(a, c);
    } else {
      assert -a == (-a) / c * c + (-a) % c;
      var q := -((-a) / c);
      assert a == q * c + TruncMod(a, c);
    }
  }

  lemma Wrap64Is(x: int)
    ensures IsInt64(Wrap64(x))
    ensures exists k :: x == Wrap64(x) + k * 0x1_0000_0000_0000_0000
  {
    var k := (x + MAX64 + 1) / 0x1_0000_0000_0000_0000;
    assert x == Wrap64(x) + k * 0x1_0000_0000_0000_0000;
  }

  // Total length of the first k items.
  function Prefix(d: seq<int>, k: nat): int
    requires k <= |d|
  {
    if k == 0 then 0 else Prefix(d, k - 1) + d[k - 1]
  }

  function Cycle(d: seq<int>): int { Prefix(d, |d|) }

  ghost predicate AllPositive(d: seq<int>) { forall i :: 0 <= i < |d| ==> d[i] > 0 }

  // What resolveAssets hands to the clock: playable items, with a cycle that fits an int64.
  ghost predicate Playable(d: seq<int>) { AllPositive(d) && 0 < Cycle(d) <= MAX64 }

  lemma {:induction false} PrefixMonotone(d: seq<int>, j: nat, k: nat)
    requires AllPositive(d) && j <= k <= |d|
    ensures Prefix(d, j) + (k - j) <= Prefix(d, k)
  {
    if j < k {
      PrefixMonotone(d, j, k - 1);
    }
  }

  // Item i is on air at offset p of the cycle.
  ghost predicate OnAir(d: seq<int>, p: int, i: nat) {
    i < |d| && Prefix(d, i) <= p < Prefix(d, i) + d[i]
  }

  lemma OnAirUnique(d: seq<int>, p: int, i: nat, j: nat)
    requires AllPositive(d) && OnAir(d, p, i) && OnAir(d, p, j)
    ensures i == j
  {
    if i < j {
      PrefixMonotone(d, i + 1, j);
    } else if j < i {
      PrefixMonotone(d, j + 1, i);
    }
  }

  // The items' slots tile the cycle: each offset belongs to exactly one item.
  lemma {:induction false} OnAirExists(d: seq<int>, p: int, k: nat) returns (i: nat)
    requires AllPositive(d) && k <= |d| && 0 <= p < Prefix(d, k)
    ensures i < k && OnAir(d, p, i)
  {
    if p >= Prefix(d, k - 1) {
      i := k - 1;
    } else {
      i := OnAirExists(d, p, k - 1);
    }
  }

  lemma WrapInRange(x: int)
    requires IsInt64(x)
    ensures Wrap64(x) == x
  {
  }

  lemma WrapAdd(x: int, y: int)
    ensures Wrap64(Wrap64(x) + y) == Wrap64(x + y)
  {
  }

  // The first loop.
  method SumDurations(durations: seq<int>) returns (cycle: int)
    ensures cycle == Wrap64(Cycle(durations))
  {
    cycle := 0;
    for i := 0 to |durations|
      invariant cycle == Wrap64(Prefix(durations, i))
    {
      WrapAdd(Prefix(durations, i), durations[i]);
      cycle := Wrap64(cycle + durations[i]);
    }
  }

  // The second loop, from an offset already reduced to the cycle.
  method Seek(durations: seq<int>, start: int) returns (index: nat, position: int)
    requires IsInt64(start)
    ensures Playable(durations) && 0 <= start < Cycle(durations) ==>
      OnAir(durations, start, index) && Prefix(durations, index) + position == start
    ensures Playable(durations) && start < 0 ==> index == 0 && position == start
    ensures index < |durations| || index == 0
  {
    position := start;
    for k := 0 to |durations|
      invariant Playable(durations) && 0 <= start < Cycle(durations) ==>
        0 <= position == start - Prefix(durations, k) <= start
      invariant Playable(durations) && start < 0 ==> k == 0 && position == start
    {
      if position < durations[k] {
        return k, position;
      }
      if Playable(durations) && 0 <= start < Cycle(durations) {
        WrapInRange(position - durations[k]);
      }
      position := Wrap64(position - durations[k]);
    }
    return 0, 0;
  }

  // deterministicPosition, for any list of int64 durations and any int64 clock reading.
  method DeterministicPosition(durations: seq<int>, nowMs: int) returns (index: nat, position: int)
    requires IsInt64(nowMs)
    // A queue of playable items: the answer is the unique slot containing the clock.
    ensures Playable(durations) && nowMs >= 0 ==>
      && OnAir(durations, nowMs % Cycle(durations), index)
      && 0 <= position < durations[index]
      && Prefix(durations, index) + position == nowMs % Cycle(durations)
    // Before the epoch the first item is chosen with a non-positive offset.
    ensures Playable(durations) && nowMs < 0 ==>
      index == 0 && position == TruncMod(nowMs, Cycle(durations)) <= 0
    ensures Playable(durations) ==> OnAirAt(durations, nowMs, index)
    // An empty or overflowing cycle is never divided by.
    ensures Wrap64(Cycle(durations)) <= 0 ==> index == 0 && position == 0
    ensures index < |durations| || index == 0
  {
    var cycle := SumDurations(durations);
    if cycle <= 0 {
      if Playable(durations) {
        WrapInRange(Cycle(durations));
      }
      return 0, 0;
    }
    index, position := Locate(durations, cycle, nowMs);
  }

  // From the remainder on.
  method Locate(durations: seq<int>, cycle: int, nowMs: int) returns (index: nat, position: int)
    requires IsInt64(nowMs) && cycle == Wrap64(Cycle(durations)) && cycle > 0
    ensures Playable(durations) && nowMs >= 0 ==>
      && OnAir(durations, nowMs % Cycle(durations), index)
      && 0 <= position < durations[index]
      && Prefix(durations, index) + position == nowMs % Cycle(durations)
    ensures Playable(durations) && nowMs < 0 ==>
      index == 0 && position == TruncMod(nowMs, Cycle(durations)) <= 0
    ensures index < |durations| || index == 0
  {
    if Playable(durations) {
      WrapInRange(Cycle(durations));
    }
    var offset := Remainder(nowMs, cycle);
    index, position := Seek(durations, offset);
    if Playable(durations) && offset == 0 {
      OnAirUnique(durations, 0, index, 0);
    }
  }

  method Remainder(a: int, c: int) returns (r: int)
    requires c > 0 && IsInt64(a)
    ensures r == TruncMod(a, c) && IsInt64(r)
    ensures a >= 0 ==> 0 <= r == a % c < c
    ensures a < 0 ==> r <= 0
  {
    r := TruncMod(a, c);
    if a >= 0 {
      RemainderBound(a, c);
    } else {
      RemainderBound(-a, c);
    }
  }

  lemma RemainderBound(a: nat, c: int)
    requires c > 0
    ensures 0 <= a % c <= a
  {
  }

  // Item i is what the clock answers at millisecond t; before the epoch that is always the first.
  ghost predicate OnAirAt(d: seq<int>, t: int, i: nat) {
    Cycle(d) > 0 && if t < 0 then i == 0 else OnAir(d, t % Cycle(d), i)
  }

  lemma OnAirInFirstCycle(d: seq<int>, t: nat, i: nat)
    requires i < |d| && t < Cycle(d)
    ensures OnAirAt(d, t, i) <==> Prefix(d, i) <= t < Prefix(d, i) + d[i]
  {
    ModUnique(t, Cycle(d), 0, t);
  }

  // Milliseconds in [from, from + n) during which item i is on air.
  ghost function Airtime(d: seq<int>, i: nat, from: int, n: nat): nat {
    if n == 0 then 0
    else (if OnAirAt(d, from + n - 1, i) then 1 else 0) + Airtime(d, i, from, n - 1)
  }

  lemma {:induction false} AirtimeSplit(d: seq<int>, i: nat, from: int, n: nat)
    requires n > 0
    ensures Airtime(d, i, from, n) ==
      (if OnAirAt(d, from, i) then 1 else 0) + Airtime(d, i, from + 1, n - 1)
  {
    if n > 1 {
      AirtimeSplit(d, i, from, n - 1);
    }
  }

  lemma SmallMultiple(k: int, c: int)
    requires -c < k * c < c
    ensures k == 0
  {
  }

  // r is the remainder when it is in range and the rest is a multiple of c.
  lemma ModUnique(a: int, c: int, q: int, r: int)
    requires 0 <= r < c && a == q * c + r
    ensures a % c == r
  {
    assert a == a / c * c + a % c;
    assert (q - a / c) * c == a % c - r;
    SmallMultiple(q - a / c, c);
  }

  lemma ModShift(a: int, c: int)
    requires c > 0
    ensures (a + c) % c == a % c
  {
    var q := a / c;
    assert a + c == (q + 1) * c + a % c;
    ModUnique(a + c, c, q + 1, a % c);
  }

  // After the epoch, sliding the window by one millisecond changes nothing.
  lemma AirtimeSlide(d: seq<int>, i: nat, from: nat)
    requires Cycle(d) > 0
    ensures Airtime(d, i, from, Cycle(d)) == Airtime(d, i, from + 1, Cycle(d))
  {
    var c := Cycle(d);
    AirtimeSplit(d, i, from, c);
    ModShift(from, c);
    assert Airtime(d, i, from + 1, c) ==
      (if OnAirAt(d, from + c, i) then 1 else 0) + Airtime(d, i, from + 1, c - 1);
  }

  lemma {:induction false} AirtimeAnywhere(d: seq<int>, i: nat, from: nat)
    requires Cycle(d) > 0
    ensures Airtime(d, i, from, Cycle(d)) == Airtime(d, i, 0, Cycle(d))
  {
    if from > 0 {
      AirtimeSlide(d, i, from - 1);
      AirtimeAnywhere(d, i, from - 1);
    }
  }

  lemma {:induction false} AirtimeFromZero(d: seq<int>, i: nat, n: nat)
    requires AllPositive(d) && i < |d| && n <= Cycle(d)
    ensures Airtime(d, i, 0, n) ==
      if n <= Prefix(d, i) then 0
      else if n <= Prefix(d, i) + d[i] then n - Prefix(d, i)
      else d[i]
  {
    PrefixMonotone(d, 0, i);
    if n > 0 {
      AirtimeFromZero(d, i, n - 1);
      OnAirInFirstCycle(d, n - 1, i);
    }
  }

  // Every item gets exactly its own duration out of any cycle-long run of milliseconds.
  lemma FairAirtime(d: seq<int>, i: nat, from: nat)
    requires AllPositive(d) && i < |d|
    ensures Cycle(d) > 0 && Airtime(d, i, from, Cycle(d)) == d[i]
  {
    PrefixMonotone(d, 0, |d|);
    PrefixMonotone(d, i + 1, |d|);
    PrefixMonotone(d, 0, i);
    AirtimeAnywhere(d, i, from);
    AirtimeFromZero(d, i, Cycle(d));
  }

  // Before the epoch the other items get nothing.
  lemma {:induction false} AirtimeAfterEpoch(d: seq<int>, i: nat, from: int, n: nat)
    requires i > 0 && from < 0
    ensures Airtime(d, i, from, n) == if from + n <= 0 then 0 else Airtime(d, i, 0, from + n)
  {
    if n > 0 {
      AirtimeAfterEpoch(d, i, from, n - 1);
    }
  }

  lemma {:induction false} OnlyItemAlwaysOnAir(d: seq<int>, from: int, n: nat)
    requires AllPositive(d) && |d| == 1
    ensures Airtime(d, 0, from, n) == n
  {
    assert Prefix(d, 0) == 0 && Cycle(d) == d[0];
    if n > 0 {
      OnlyItemAlwaysOnAir(d, from, n - 1);
    }
  }

  // A cycle-long run of milliseconds is fair to all items exactly when it starts after the
  // epoch or there is only one item.
  lemma FairIffAfterEpoch(d: seq<int>, from: int)
    requires AllPositive(d) && d != []
    ensures Cycle(d) > 0
    ensures (forall i :: 0 <= i < |d| ==> Airtime(d, i, from, Cycle(d)) == d[i]) <==> from >= 0 || |d| == 1
  {
    PrefixMonotone(d, 0, |d|);
    if from >= 0 {
      forall i | 0 <= i < |d| ensures Airtime(d, i, from, Cycle(d)) == d[i] {
        FairAirtime(d, i, from);
      }
    } else if |d| == 1 {
      OnlyItemAlwaysOnAir(d, from, Cycle(d));
    } else {
      var last := |d| - 1;
      AirtimeAfterEpoch(d, last, from, Cycle(d));
      if from + Cycle(d) > 0 {
        AirtimeFromZero(d, last, from + Cycle(d));
      }
      assert Airtime(d, last, from, Cycle(d)) < d[last];
    }
  }
}
