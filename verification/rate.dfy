/** The rate limiter of the benchmark client: benchmark/rate.go. Times and durations are nanoseconds; the clock is a
    parameter, and a sleep lasts exactly as long as asked. */
module RateLimit {
  import opened Types

  const SECOND := 1_000_000_000

  /** Division that rounds towards zero. */
  function Quotient(a: int, b: int): int
    requires b != 0
  {
    if a >= 0 then a / b else -((-a) / b)
  }

  datatype State = State(last: Option<int>, sleep: int, interval: int, slack: int)

  function Started(rate: int): State
    requires rate != 0
  {
    State(None, 0, Quotient(SECOND, rate), Quotient(-10 * SECOND, rate))
  }

  /** One call at time `now`; the call returns at the new `last`. */
  function Waited(l: State, now: int): State {
    match l.last
    case None => l.(last := Some(now))
    case Some(t) =>
      var asked := l.sleep + l.interval - (now - t);
      var sleep := if asked < l.slack then l.slack else asked;
      if sleep > 0 then l.(last := Some(now + sleep), sleep := 0) else l.(last := Some(now), sleep := sleep)
  }

  ghost function WaitedAll(l: State, nows: seq<int>): State {
    if nows == [] then l else Waited(WaitedAll(l, nows[..|nows| - 1]), nows[|nows| - 1])
  }

  /** When call `i` of a client returns. */
  ghost function Return(rate: int, nows: seq<int>, i: nat): int
    requires rate != 0 && i < |nows|
  {
    match WaitedAll(Started(rate), nows[..i + 1]).last
    case None => 0
    case Some(t) => t
  }

  // ---------------------------------------------------------------- the bound

  /** The sleep owed is never positive and never below the slack. */
  ghost predicate Sane(l: State) {
    l.slack <= l.sleep <= 0
  }

  /** The return time and the sleep owed together: it gains an interval with every call. */
  ghost function Potential(l: State): int {
    (match l.last case None => 0 case Some(t) => t) + l.sleep
  }

  lemma StepGains(l: State, now: int)
    requires Sane(l)
    ensures Sane(Waited(l, now)) && Waited(l, now).last.Some?
    ensures Waited(l, now).interval == l.interval && Waited(l, now).slack == l.slack
    ensures l.last.Some? ==> Potential(Waited(l, now)) >= Potential(l) + l.interval
  {
  }

  lemma StartSane(rate: int)
    requires rate > 0
    ensures Sane(Started(rate)) && Started(rate).interval >= 0 && Started(rate).slack <= 0
  {
    QuotientSign(SECOND, rate);
    QuotientSign(-10 * SECOND, rate);
    hide Quotient;
  }

  lemma QuotientSign(a: int, b: int)
    requires b > 0
    ensures a >= 0 ==> Quotient(a, b) >= 0
    ensures a <= 0 ==> Quotient(a, b) <= 0
  {
  }

  lemma {:induction false} AllSane(l: State, nows: seq<int>)
    requires Sane(l)
    ensures var m := WaitedAll(l, nows);
            && Sane(m) && m.interval == l.interval && m.slack == l.slack
            && (nows != [] || l.last.Some? ==> m.last.Some?)
  {
    if nows != [] {
      AllSane(l, nows[..|nows| - 1]);
      StepGains(WaitedAll(l, nows[..|nows| - 1]), nows[|nows| - 1]);
    }
  }

  lemma {:induction false} PotentialGains(l: State, nows: seq<int>, i: nat, j: nat)
    requires Sane(l) && 0 < i <= j <= |nows|
    ensures Potential(WaitedAll(l, nows[..j])) >= Potential(WaitedAll(l, nows[..i])) + (j - i) * l.interval
    decreases j
  {
    if i < j {
      PotentialGains(l, nows, i, j - 1);
      AllSane(l, nows[..j - 1]);
      assert nows[..j][..j - 1] == nows[..j - 1];
      StepGains(WaitedAll(l, nows[..j - 1]), nows[j - 1]);
      assert (j - i) * l.interval == (j - 1 - i) * l.interval + l.interval;
    }
  }

  /** The rate bound: whenever the calls are made, in any number, call `j` returns at least `j - i` intervals after
      call `i`, up to the slack. */
  lemma RateBound(rate: int, nows: seq<int>, i: nat, j: nat)
    requires rate > 0 && i <= j < |nows|
    ensures Return(rate, nows, j) - Return(rate, nows, i)
         >= (j - i) * Started(rate).interval + Started(rate).slack
  {
    var l := Started(rate);
    StartSane(rate);
    PotentialGains(l, nows, i + 1, j + 1);
    AllSane(l, nows[..i + 1]);
    AllSane(l, nows[..j + 1]);
    assert j + 1 - (i + 1) == j - i;
  }

  /** If the clock does not run backwards, no call sleeps longer than one interval. */
  lemma SleepBound(rate: int, nows: seq<int>, i: nat)
    requires rate > 0 && 0 < i < |nows| && nows[i] >= Return(rate, nows, i - 1)
    ensures nows[i] <= Return(rate, nows, i) <= nows[i] + Started(rate).interval
  {
    var l := Started(rate);
    StartSane(rate);
    AllSane(l, nows[..i]);
    assert nows[..i + 1][..i] == nows[..i];
    assert nows[..i - 1 + 1] == nows[..i];
  }

  // ---------------------------------------------------------------- the bound is reached

  /** Calls made back to back: each one as soon as the one before has returned. */
  ghost function Burst(l: State, k: nat): State {
    if k == 0 then l else var m := Burst(l, k - 1); Waited(m, match m.last case None => 0 case Some(t) => t)
  }

  /** After a long pause the slack is used up first, and then the calls come exactly one interval apart. */
  lemma {:induction false} BurstExact(l: State, t: int, k: nat)
    requires l.last == Some(t) && l.sleep == l.slack <= 0 && l.interval >= 0
    ensures var due := k * l.interval + l.slack;
            Burst(l, k) == l.(last := Some(if due > 0 then t + due else t), sleep := if due > 0 then 0 else due)
  {
    if k > 0 {
      BurstExact(l, t, k - 1);
      assert k * l.interval == (k - 1) * l.interval + l.interval;
      assert (k - 1) * l.interval >= 0;
    }
  }

  /** The times of such calls, after a first call at time 0 and a pause. */
  lemma {:induction false} BurstTimes(l: State, t: int, k: nat) returns (nows: seq<int>)
    requires l.last.None? && Sane(l)
    ensures |nows| == k + 2 && nows[..2] == [0, t]
    ensures WaitedAll(l, nows) == Burst(Waited(Waited(l, 0), t), k)
  {
    if k == 0 {
      nows := [0, t];
      assert nows[..1] == [0] && nows[..1][..0] == [];
      assert WaitedAll(l, nows[..1]) == Waited(WaitedAll(l, []), 0);
    } else {
      var before := BurstTimes(l, t, k - 1);
      var m := Burst(Waited(Waited(l, 0), t), k - 1);
      nows := before + [match m.last case None => 0 case Some(u) => u];
      assert nows[..|nows| - 1] == before;
      assert nows[..2] == before[..2];
    }
  }

  /** The bound cannot be improved: after a pause, call `k` of a burst meets it with equality, for every `k` for
      which the bound is not negative. */
  lemma BoundIsReached(rate: int, k: nat) returns (nows: seq<int>)
    requires rate > 0 && k * Started(rate).interval + Started(rate).slack >= 0
    ensures |nows| == k + 2
    ensures Return(rate, nows, k + 1) - Return(rate, nows, 1) == k * Started(rate).interval + Started(rate).slack
  {
    StartSane(rate);
    hide Started;
    var l := Started(rate);
    var t := l.interval - l.slack;
    assert l.last.None? by { FirstCall(rate); }
    nows := BurstTimes(l, t, k);
    var paused := Waited(Waited(l, 0), t);
    assert paused == l.(last := Some(t), sleep := l.slack) by { FirstCall(rate); }
    BurstExact(paused, t, k);
    assert nows[..k + 2] == nows;
    TwoCalls(l, nows, t);
  }

  lemma FirstCall(rate: int)
    requires rate != 0
    ensures Started(rate).last.None? && Started(rate).sleep == 0
  {
  }

  lemma TwoCalls(l: State, nows: seq<int>, t: int)
    requires |nows| >= 2 && nows[..2] == [0, t]
    ensures WaitedAll(l, nows[..2]) == Waited(Waited(l, 0), t)
  {
    assert [0, t][..1] == [0] && [0][..0] == [];
    assert WaitedAll(l, [0]) == Waited(WaitedAll(l, []), 0);
  }

  // ---------------------------------------------------------------- the object

  class Limiter {
    var last: Option<int>
    var sleep: int
    const interval: int
    const slack: int

    ghost function Model(): State
      reads this
    {
      State(last, sleep, interval, slack)
    }

    constructor (rate: int)
      requires rate != 0
      ensures Model() == Started(rate)
    {
      last, sleep := None, 0;
      interval, slack := Quotient(SECOND, rate), Quotient(-10 * SECOND, rate);
    }

    method Wait(now: int) returns (back: int)
      modifies this
      ensures Model() == Waited(old(Model()), now) && last == Some(back)
      ensures old(Sane(Model())) ==> Sane(Model()) && back >= now
    {
      if last.None? {
        last := Some(now);
        return now;
      }
      sleep := sleep + interval - (now - last.value);
      if sleep < slack {
        sleep := slack;
      }
      if sleep > 0 {
        last := Some(now + sleep);
        sleep := 0;
      } else {
        last := Some(now);
      }
      return last.value;
    }
  }
}
