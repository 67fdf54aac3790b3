/** What the /salary check and /salary queue commands show about the cooldown
    and the payment queue, computed from the ledger and the queue. */
module Views {

  import opened Wrappers
  import opened Players
  import opened Ledger
  import opened TimeFormat

  /** Milliseconds to whole seconds as Java's long division by 1000 does
      it: the quotient truncated toward zero, for either sign. */
  function WholeSeconds(ms: int): (r: int)
    ensures ms >= 0 ==> 0 <= r && r * 1000 <= ms < r * 1000 + 1000
    ensures ms < 0 ==> r <= 0 && r * 1000 - 1000 < ms <= r * 1000
  {
    if ms >= 0 then ms / 1000 else -((-ms) / 1000)
  }

  /** The check command's cooldown verdict, with the whole seconds since the
      last payment and, while waiting, the whole seconds still to go. */
  datatype Readiness = NeverPaid | Ready(secondsSince: int) | Waiting(secondsSince: int, secondsUntil: int)

  function CheckReadiness(lastPaid: Option<int>, now: int, intervalSeconds: int): Readiness
  {
    match lastPaid
    case None => NeverPaid
    case Some(l) =>
      var since := WholeSeconds(now - l);
      var until := intervalSeconds - since;
      if until > 0 then Waiting(since, until) else Ready(since)
  }

  /** The lines the check command prints about the cooldown. */
  function ReadinessLines(r: Readiness): seq<string>
  {
    match r
    case NeverPaid => ["Never received salary", "Ready for payment!"]
    case Ready(since) => ["Last paid: " + FormatTime(since) + " ago", "Ready for payment!"]
    case Waiting(since, until) =>
      ["Last paid: " + FormatTime(since) + " ago", "Next payment in: " + FormatTime(until)]
  }

  function LastPaid(last: map<Uuid, int>, u: Uuid): Option<int>
  {
    if u in last then Some(last[u]) else None
  }

  /** The check command announces "Ready for payment!" exactly when the
      periodic gate would let the player through, provided the interval is
      positive or the clock has not gone back since the last payment. */
  lemma ReadinessMatchesGate(last: map<Uuid, int>, u: Uuid, now: int, intervalSeconds: int)
    requires u in last ==> intervalSeconds > 0 || now >= last[u]
    ensures var lines := ReadinessLines(CheckReadiness(LastPaid(last, u), now, intervalSeconds));
      |lines| == 2 &&
      (lines[1] == "Ready for payment!" <==> IsEligible(last, u, now, intervalSeconds * 1000))
  {
    if u in last {
      var d := now - last[u];
      var since := WholeSeconds(d);
      if d >= 0 {
        assert since * 1000 <= d < since * 1000 + 1000;
        if since < intervalSeconds {
          assert since + 1 <= intervalSeconds;
          assert d < intervalSeconds * 1000;
        } else {
          assert d >= intervalSeconds * 1000;
        }
      }
    }
  }

  /** The queue command's time estimate: nothing for an empty queue,
      otherwise the queue length times the cooldown, in whole seconds. */
  function QueueEstimate(size: nat, cooldownMs: int): Option<string>
  {
    if size == 0 then None else Some(FormatTime(WholeSeconds(size * cooldownMs)))
  }

  lemma ProductNonNegative(a: nat, b: nat)
    ensures a * b >= 0
  {
  }

  lemma EstimateOfTotal(total: int)
    requires total >= 0
    ensures var t := total / 1000;
      t * 1000 <= total < t * 1000 + 1000 &&
      ReadTime(FormatTime(WholeSeconds(total))) == Some(t - t % Granularity(t))
  {
    FormatTimeRoundTrip(WholeSeconds(total));
    assert WholeSeconds(total) == total / 1000;
  }

  /** The estimate is shown exactly for a non-empty queue. For any cooldown
      it reads back as the total pause in whole seconds, truncated toward
      zero as Java's long division does, and then to the unit its bucket
      shows; for a non-negative cooldown those whole seconds are the total
      rounded down. */
  lemma QueueEstimateReads(size: nat, cooldownMs: int)
    ensures QueueEstimate(size, cooldownMs).Some? <==> size > 0
    ensures size > 0 ==>
      var t := WholeSeconds(size * cooldownMs);
      ReadTime(QueueEstimate(size, cooldownMs).value) == Some(t - t % Granularity(t))
    ensures size > 0 && cooldownMs >= 0 ==>
      var t := size * cooldownMs / 1000;
      t * 1000 <= size * cooldownMs < t * 1000 + 1000 &&
      ReadTime(QueueEstimate(size, cooldownMs).value) == Some(t - t % Granularity(t))
  {
    if size > 0 {
      FormatTimeRoundTrip(WholeSeconds(size * cooldownMs));
    }
    if size > 0 && cooldownMs >= 0 {
      var total := size * cooldownMs;
      ProductNonNegative(size, cooldownMs);
      assert QueueEstimate(size, cooldownMs) == Some(FormatTime(WholeSeconds(total)));
      EstimateOfTotal(total);
    }
  }
}
