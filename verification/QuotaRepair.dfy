/**
 Drift repair between the Postgres reservation of a campaign and what Redis accounts for: the
 decision function, and the effect of deciding and applying repairs until none is due.
 */
module QuotaRepair {
  import opened Common

  const CRASH_GAP_SECONDS := 30

  datatype Repair = NoRepair | TopUpRedis(amount: int) | ReleasePg(amount: int)

  function Chunk(chunkSize: int): int { if chunkSize <= 0 then 1 else chunkSize }
  function Abs(x: int): int { if x < 0 then -x else x }

  // `age`: seconds since the reservation row was last updated.
  function Decide(reserved: int, chunkSize: int, age: int, expected: int, keyMissing: bool): Repair {
    var chunk := Chunk(chunkSize);
    var drift := reserved - expected;
    if keyMissing && reserved > 0 && age >= CRASH_GAP_SECONDS then TopUpRedis(if reserved > chunk then chunk else reserved)
    else if Abs(drift) <= chunk then NoRepair
    else if drift > 0 then TopUpRedis(if drift > chunk * 2 then chunk else drift)
    else ReleasePg(-drift)
  }

  // With the key present a repair is decided exactly when the two sides are more than a chunk
  // apart, in the direction that is short; a chunk size that is not positive counts as one.
  lemma RepairDecidedIff(reserved: int, chunkSize: int, age: int, expected: int)
    ensures var chunk, repair := if chunkSize > 0 then chunkSize else 1, Decide(reserved, chunkSize, age, expected, false);
            && (repair.TopUpRedis? <==> reserved > expected + chunk)
            && (repair.ReleasePg? <==> expected > reserved + chunk)
            && (repair.TopUpRedis? ==> repair.amount == if reserved - expected <= 2 * chunk then reserved - expected else chunk)
            && (repair.ReleasePg? ==> repair.amount == expected - reserved)
  {
  }

  // Repairs due for a drift, when the quota key is present: one chunk each while more than two
  // remain, then the rest at once.
  function RepairsDue(drift: int, chunk: int): int
    requires chunk > 0
  {
    if drift <= chunk then 0 else (drift + chunk - 1) / chunk - 1
  }

  lemma QuotientLessOne(x: int, chunk: int)
    requires chunk > 0
    ensures (x - chunk) / chunk == x / chunk - 1
  {
    var q, r := x / chunk, x % chunk;
    assert x == chunk * q + r;
    assert x - chunk == chunk * (q - 1) + r;
    QuotientUnique(x - chunk, chunk, q - 1, r);
  }

  lemma Multiple(chunk: int, k: int)
    requires chunk > 0 && k >= 1
    ensures chunk * k >= chunk
  {
    assert chunk * k == chunk + chunk * (k - 1);
  }

  lemma QuotientUnique(x: int, chunk: int, q: int, r: int)
    requires chunk > 0 && x == chunk * q + r && 0 <= r < chunk
    ensures x / chunk == q
  {
    var p, m := x / chunk, x % chunk;
    assert chunk * p + m == chunk * q + r;
    assert chunk * p == chunk * q + chunk * (p - q) && chunk * (q - p) == 0 - chunk * (p - q);
    if p > q {
      Multiple(chunk, p - q);
    } else if p < q {
      Multiple(chunk, q - p);
    }
  }

  // One decided and applied top-up strictly shrinks the drift, never past zero, and leaves one
  // repair less to do.
  lemma TopUpShrinks(reserved: int, chunkSize: int, age: int, expected: int)
    requires reserved - expected > Chunk(chunkSize)
    ensures var repair := Decide(reserved, chunkSize, age, expected, false);
            && repair.TopUpRedis? && repair.amount > 0
            && (var left := reserved - (expected + repair.amount);
                && 0 <= left < reserved - expected && (left == 0 || left > Chunk(chunkSize))
                && RepairsDue(left, Chunk(chunkSize)) == RepairsDue(reserved - expected, Chunk(chunkSize)) - 1)
  {
    var chunk, drift := Chunk(chunkSize), reserved - expected;
    if drift > 2 * chunk {
      QuotientLessOne(drift + chunk - 1, chunk);
    } else {
      QuotientUnique(drift + chunk - 1, chunk, 2, drift - chunk - 1);
    }
  }

  // Releasing in Postgres lowers the side that is already too low: the gap never shrinks, and
  // grows until the reservation is gone.
  lemma ReleaseWidensGap(reserved: nat, chunkSize: int, age: int, expected: int)
    requires Decide(reserved, chunkSize, age, expected, false).ReleasePg?
    ensures var amount := Decide(reserved, chunkSize, age, expected, false).amount;
            var left := if reserved - amount < 0 then 0 else reserved - amount;
            && amount > 0
            && Abs(left - expected) >= Abs(reserved - expected)
            && (Abs(left - expected) == Abs(reserved - expected) <==> reserved == 0)
  {
  }

  // A missing key is topped up exactly when something is reserved and the row is old enough, by at
  // most a chunk and never by more than the reservation; otherwise the drift decides as ever. What
  // Redis then accounts for stays within the reservation if and only if what it held besides the
  // key left room for the amount.
  lemma MissingKeyTopUp(reserved: int, chunkSize: int, age: int, unsettled: int)
    ensures var repair := Decide(reserved, chunkSize, age, unsettled, true);
            if reserved > 0 && age >= 30 then
              && repair.TopUpRedis? && 0 < repair.amount <= reserved && repair.amount <= Chunk(chunkSize)
              && (repair.amount == reserved || repair.amount == Chunk(chunkSize))
              && (unsettled + repair.amount <= reserved <==>
                  unsettled <= 0 || (Chunk(chunkSize) < reserved && unsettled <= reserved - Chunk(chunkSize)))
            else repair == Decide(reserved, chunkSize, age, unsettled, false)
  {
  }

  // The quota of one campaign in both stores; `unsettled` is what Redis holds besides the key.
  class CampaignQuota {
    var reserved: int
    var chunkSize: int
    var quota: Option<int>
    var unsettled: int

    function Expected(): int
      reads this
    {
      (if quota.Some? then quota.value else 0) + unsettled
    }

    function Drift(): int
      reads this
    {
      reserved - Expected()
    }

    // Applies a repair payload; a payload without a positive amount is refused.
    method ApplyQuotaRepair(repair: Repair) returns (ok: bool)
      modifies this`quota, this`reserved
      ensures ok == (!repair.NoRepair? && repair.amount > 0)
      ensures ok && repair.TopUpRedis? ==>
                reserved == old(reserved) && quota == Some((if old(quota).Some? then old(quota).value else 0) + repair.amount)
      ensures ok && repair.ReleasePg? ==>
                quota == old(quota) && reserved == (if old(reserved) - repair.amount < 0 then 0 else old(reserved) - repair.amount)
      ensures !ok ==> quota == old(quota) && reserved == old(reserved)
    {
      if repair.NoRepair? || repair.amount <= 0 { return false; }
      if repair.TopUpRedis? {
        var base := if quota.Some? then quota.value else 0;
        quota := Some(base + repair.amount);
      } else {
        reserved := if reserved - repair.amount < 0 then 0 else reserved - repair.amount;
      }
      return true;
    }

    // Decide, apply, decide again, until nothing is due; `age` is arbitrary in every round.
    method RepairUntilSettled() returns (repairs: nat)
      requires quota.Some? && Drift() >= -Chunk(chunkSize)
      modifies this`quota, this`reserved
      ensures reserved == old(reserved) && quota.Some?
      ensures old(reserved - quota.value - unsettled) > Chunk(chunkSize) ==> quota.value + unsettled == reserved
      ensures repairs == RepairsDue(old(reserved - quota.value - unsettled), Chunk(chunkSize))
      ensures old(Drift()) > Chunk(chunkSize) ==> Drift() == 0
      ensures old(Drift()) <= Chunk(chunkSize) ==> quota == old(quota)
    {
      repairs := 0;
      while true
        invariant quota.Some? && reserved == old(reserved)
        invariant Drift() == old(Drift()) || Drift() == 0 || Drift() > Chunk(chunkSize)
        invariant Drift() != old(Drift()) ==> old(Drift()) > Chunk(chunkSize)
        invariant Drift() == old(Drift()) ==> quota == old(quota)
        invariant Drift() >= -Chunk(chunkSize)
        invariant repairs + RepairsDue(Drift(), Chunk(chunkSize)) == RepairsDue(old(Drift()), Chunk(chunkSize))
        decreases Drift() + Chunk(chunkSize)
      {
        var age: int := *;
        var repair := Decide(reserved, chunkSize, age, Expected(), quota.None?);
        if repair.NoRepair? { break; }
        TopUpShrinks(reserved, chunkSize, age, Expected());
        var ok := ApplyQuotaRepair(repair);
        repairs := repairs + 1;
      }
    }
  }
}
