/** The two clocks of a lease: when the helper renews it, when the app brings a
    fresh bearer, and how a failed renewal is retried. Durations are Go's int64
    nanoseconds, with its truncating division and wrapping product. */
module LeaseClock {
  import opened Powers
  import opened Wrappers

  const SECOND := 1_000_000_000
  const MINUTE := 60 * SECOND
  const HOUR := 60 * MINUTE
  const TWO_62 := 0x4000_0000_0000_0000
  const TWO_63 := 0x8000_0000_0000_0000
  const TWO_64 := 0x1_0000_0000_0000_0000

  /** How long a renewal that failed waits at most. */
  const RETRY_AFTER: Duration := MINUTE

  type Duration = d: int | -TWO_63 <= d < TWO_63

  function Min(a: int, b: int): int { if a < b then a else b }

  function Max(a: int, b: int): int { if a > b then a else b }

  /** Integer division toward zero. */
  function TruncDiv(a: int, b: int): int
    requires b > 0
  {
    if a >= 0 then a / b else -((-a) / b)
  }

  /** The low 64 bits of a, read as a signed number. */
  function Wrap64(a: int): Duration {
    (a + TWO_63) % TWO_64 - TWO_63
  }

  /** From now to t, saturating at the ends of int64. */
  function Until(t: int, now: int): Duration {
    Min(Max(t - now, -TWO_63), TWO_63 - 1)
  }

  /** The helper's delay before renewing a lease with remaining left. */
  function HelperDelay(remaining: Duration): Duration {
    Min(Max(TruncDiv(remaining, 2), 30 * SECOND), 10 * MINUTE)
  }

  /** The app's delay before bringing the next bearer. */
  function AppDelay(remaining: Duration): Duration {
    Min(Max(TruncDiv(Wrap64(remaining * 2), 5), 20 * SECOND), 8 * MINUTE)
  }

  /** What a lease has left; a server that gave none counts for two hours. */
  function Remaining(lease: Option<int>, now: int): Duration {
    match lease
    case None => 2 * HOUR
    case Some(t) => Until(t, now)
  }

  /** What a failed renewal takes the lease to have left. */
  function RetryLeft(lease: Option<int>, now: int): Duration {
    match lease
    case None => RETRY_AFTER * 2
    case Some(t) => Until(t, now)
  }

  /** How long a failed renewal waits before the next. */
  function RetryGap(left: Duration): Duration {
    Min(RETRY_AFTER, Max(TruncDiv(left, 2), SECOND))
  }

  // ---------------------------------------------------------------- shares

  /** The helper renews at half of what is left, to the nanosecond, from a minute to
      twenty; at 30 s below that, and at ten minutes above. */
  lemma HelperDelayIsHalf(r: Duration)
    ensures r <= 60_000_000_000 ==> HelperDelay(r) == 30_000_000_000
    ensures r >= 1_200_000_000_000 ==> HelperDelay(r) == 600_000_000_000
    ensures 60_000_000_000 <= r <= 1_200_000_000_000 ==> r - 1 <= 2 * HelperDelay(r) <= r
    ensures HelperDelay(Remaining(None, 0)) == 600_000_000_000
  {
  }

  /** The app at two fifths, from fifty seconds to twenty minutes; at 20 s below that, and at
      eight minutes above, as far as the doubling does not wrap. */
  lemma AppDelayIsTwoFifths(r: Duration)
    requires -TWO_62 <= r < TWO_62
    ensures r <= 50_000_000_000 ==> AppDelay(r) == 20_000_000_000
    ensures r >= 1_200_000_000_000 ==> AppDelay(r) == 480_000_000_000
    ensures 50_000_000_000 <= r <= 1_200_000_000_000 ==> 2 * r - 4 <= 5 * AppDelay(r) <= 2 * r
  {
    assert Wrap64(r * 2) == r * 2;
  }

  /** A retry comes at half of what is left, from two seconds to two minutes; after a second
      below that, and after a minute above, or if there is no lease. */
  lemma RetryGapIsHalf(left: Duration)
    ensures left <= 2_000_000_000 ==> RetryGap(left) == 1_000_000_000
    ensures left >= 120_000_000_000 ==> RetryGap(left) == 60_000_000_000
    ensures 2_000_000_000 <= left <= 120_000_000_000 ==> left - 1 <= 2 * RetryGap(left) <= left
    ensures RetryGap(RetryLeft(None, 0)) == 60_000_000_000
  {
  }

  // ---------------------------------------------------------------- margins

  /** The helper leaves the app at least six seconds, exactly outside the band of
      hugely negative durations whose double wraps around to a large positive one. */
  lemma MarginExact(r: Duration)
    ensures HelperDelay(r) - AppDelay(r) >= 6 * SECOND
       <==> r >= -TWO_62 || r <= -TWO_63 + 60 * SECOND + 2
  {
    if r < -TWO_62 {
      assert Wrap64(r * 2) == r * 2 + TWO_64;
    } else if r < TWO_62 {
      assert Wrap64(r * 2) == r * 2;
    } else {
      assert Wrap64(r * 2) == r * 2 - TWO_64;
    }
  }

  /** Six seconds is the best bound: a lease with a minute left leaves no more. */
  lemma MarginSharp()
    ensures HelperDelay(60 * SECOND) - AppDelay(60 * SECOND) == 6 * SECOND
  {
    assert Wrap64(120 * SECOND) == 120 * SECOND;
  }

  /** The app read the lease lag after the helper did, and still comes first. */
  ghost predicate AppFirst(r: Duration, lag: Duration)
    requires lag >= 0 && r - lag >= -TWO_63
  {
    lag + AppDelay(r - lag) < HelperDelay(r)
  }

  /** At every remaining time that is not absurdly past, an app that lags by less
      than ten seconds delivers its bearer first; one that lags by ten does not. */
  lemma AppComesFirst(lag: Duration)
    requires lag >= 0
    ensures lag < 10 * SECOND
       <==> forall r: Duration | r - lag >= -TWO_62 :: AppFirst(r, lag)
  {
    if lag < 10 * SECOND {
      forall r: Duration | r - lag >= -TWO_62
        ensures AppFirst(r, lag)
      {
        LaggingApp(r, lag);
      }
    } else {
      var r: Duration := if lag < TWO_62 then Min(60 * SECOND, lag) else lag - TWO_62;
      assert r - lag >= -TWO_62;
      assert Wrap64((r - lag) * 2) == (r - lag) * 2;
      assert !AppFirst(r, lag);
    }
  }

  lemma LaggingApp(r: Duration, lag: Duration)
    requires 0 <= lag < 10 * SECOND && r - lag >= -TWO_62
    ensures AppFirst(r, lag)
  {
    if r - lag < TWO_62 {
      assert Wrap64((r - lag) * 2) == (r - lag) * 2;
    } else {
      assert Wrap64((r - lag) * 2) == (r - lag) * 2 - TWO_64;
    }
  }

  /** Against a server that gives no lease both delays are constant, and the app
      comes first exactly when it lags by less than two minutes. */
  lemma AppComesFirstWithoutLease(lag: nat)
    ensures lag + AppDelay(Remaining(None, 0)) < HelperDelay(Remaining(None, 0))
       <==> lag < 2 * MINUTE
  {
    assert Wrap64(4 * HOUR) == 4 * HOUR;
  }

  /** A renewal falls due before the lease ends exactly when more than 30 s are
      left, and leaves at least as long to retry in from a minute on. */
  lemma RenewalBeforeLeaseEnds(r: Duration)
    ensures HelperDelay(r) < r <==> r > 30 * SECOND
    ensures HelperDelay(r) <= r - HelperDelay(r) <==> r >= MINUTE
  {
  }

  // ---------------------------------------------------------------- retries

  /** A retry falls before the lease ends exactly when more than a second is left. */
  lemma RetryBeforeLeaseEnds(left: Duration)
    ensures SECOND <= RetryGap(left) <= RETRY_AFTER
    ensures RetryGap(left) < left <==> left > SECOND
  {
  }

  /** The instants at which a renewal due at now is attempted before the lease
      ends, when every attempt fails at once. */
  function Attempts(now: int, lease: int): seq<int>
    decreases lease - now
  {
    if now >= lease then []
    else [now] + Attempts(now + RetryGap(RetryLeft(Some(lease), now)), lease)
  }

  /** Attempts start at now, stay before the lease's end, are between a second and
      RETRY_AFTER apart, and none that would fit is missing. */
  lemma {:induction false} AttemptsPaced(now: int, lease: int)
    requires now < lease
    ensures var a := Attempts(now, lease);
            && |a| > 0 && a[0] == now
            && (forall k | 0 <= k < |a| :: a[k] < lease)
            && (forall k | 0 <= k < |a| - 1 :: SECOND <= a[k+1] - a[k] <= RETRY_AFTER)
            && lease <= a[|a|-1] + RetryGap(Until(lease, a[|a|-1]))
    decreases lease - now
  {
    var next := now + RetryGap(Until(lease, now));
    assert SECOND <= next - now <= RETRY_AFTER;
    if next < lease {
      AttemptsPaced(next, lease);
      var a, b := Attempts(now, lease), Attempts(next, lease);
      assert a == [now] + b;
      forall k | 0 <= k < |a| - 1
        ensures SECOND <= a[k+1] - a[k] <= RETRY_AFTER
      {
        if k > 0 {
          assert a[k+1] == b[k-1+1] && a[k] == b[k-1];
        }
      }
      assert a[|a|-1] == b[|b|-1];
    } else {
      assert Attempts(now, lease) == [now];
    }
  }

  /** More than 2^k seconds leave room for k + 2 attempts. */
  lemma {:induction false} AttemptsAtLeast(now: int, lease: int, k: nat)
    requires lease - now > Pow2(k) * SECOND
    ensures |Attempts(now, lease)| >= k + 2
    decreases k
  {
    var left := Until(lease, now);
    var next := now + RetryGap(left);
    if k == 0 {
      assert RetryGap(left) < lease - now;
    } else {
      assert Pow2(k) == 2 * Pow2(k - 1) >= 2;
      assert RetryGap(left) <= (lease - now) / 2;
      AttemptsAtLeast(next, lease, k - 1);
    }
  }

  /** No more than 2^k seconds leave room for at most k + 1, up to two minutes. */
  lemma {:induction false} AttemptsAtMost(now: int, lease: int, k: nat)
    requires 0 < lease - now <= Pow2(k) * SECOND && lease - now <= 2 * MINUTE
    ensures |Attempts(now, lease)| <= k + 1
    decreases k
  {
    var next := now + RetryGap(Until(lease, now));
    if k > 0 && next < lease {
      AttemptsAtMost(next, lease, k - 1);
    }
  }

  /** A lease recorded at t with at least a minute left is tried at least six times
      strictly before it ends. */
  lemma SixAttempts(t: int, lease: int)
    requires MINUTE <= lease - t < TWO_63
    ensures |Attempts(t + HelperDelay(Remaining(Some(lease), t)), lease)| >= 6
  {
    assert Pow2(4) == 16;
    AttemptsAtLeast(t + HelperDelay(lease - t), lease, 4);
  }

  /** The minutes begun in a span. */
  function Minutes(span: nat): nat {
    (span + MINUTE - 1) / MINUTE
  }

  lemma RetryEveryMinute(now: int, lease: int)
    requires lease - now > 2 * MINUTE
    ensures Attempts(now, lease) == [now] + Attempts(now + MINUTE, lease)
  {
  }

  /** One attempt a minute, and six more for the halvings at the end. */
  lemma {:induction false} AttemptsBounded(now: int, lease: int)
    requires now < lease
    ensures |Attempts(now, lease)| <= Minutes(lease - now) + 6
    decreases lease - now
  {
    assert Pow2(6) == 64 && Pow2(7) == 128;
    if lease - now <= MINUTE {
      AttemptsAtMost(now, lease, 6);
    } else if lease - now <= 2 * MINUTE {
      AttemptsAtMost(now, lease, 7);
    } else {
      RetryEveryMinute(now, lease);
      AttemptsBounded(now + MINUTE, lease);
    }
  }

  /** Both counts are met: a minute recorded gives six, a minute left gives seven. */
  lemma AttemptsSharp()
    ensures |Attempts(HelperDelay(MINUTE), MINUTE)| == 6
    ensures |Attempts(0, MINUTE)| == 7
  {
    assert Pow2(4) == 16 && Pow2(5) == 32 && Pow2(6) == 64;
    AttemptsAtLeast(HelperDelay(MINUTE), MINUTE, 4);
    AttemptsAtMost(HelperDelay(MINUTE), MINUTE, 5);
    AttemptsAtLeast(0, MINUTE, 5);
    AttemptsAtMost(0, MINUTE, 6);
  }
}
