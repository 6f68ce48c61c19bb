/** Durations in seconds: timeouts that grow with the size of what is sent. */
module Timing {

  // ------------------------------------------------------- size-scaled timeouts

  const MIN_BULK_THROUGHPUT: real := 64.0 * 1024.0
  const MAX_BULK_SEND_TIMEOUT: real := 45.0
  const MAX_POST_TIMEOUT: real := 60.0

  function Max(a: real, b: real): real {
    if a < b then b else a
  }

  function Min(a: real, b: real): real {
    if a < b then a else b
  }

  function ScaledTimeout(base: real, length: nat, cap: real): real {
    Max(Min(base + length as real / MIN_BULK_THROUGHPUT, cap), base)
  }

  function BulkSendTimeout(base: real, length: nat): real {
    ScaledTimeout(base, length, MAX_BULK_SEND_TIMEOUT)
  }

  function PostTimeout(base: real, length: nat): real {
    ScaledTimeout(base, length, MAX_POST_TIMEOUT)
  }

  lemma {:induction false} TransferTime(a: nat, b: nat)
    requires a <= b
    ensures 0.0 <= a as real / MIN_BULK_THROUGHPUT <= b as real / MIN_BULK_THROUGHPUT
  {
  }

  /** Never below the base, never above the larger of base and cap, never shorter for a longer body. */
  lemma {:induction false} ScaledTimeoutBounds(base: real, shorter: nat, longer: nat, cap: real)
    requires shorter <= longer
    ensures base <= ScaledTimeout(base, shorter, cap) <= ScaledTimeout(base, longer, cap) <= Max(base, cap)
  {
    TransferTime(shorter, longer);
  }

  /**
   Below the cap a body gets exactly one second per 64 KiB on top of the base, and the cap is reached exactly from
   there on.
   */
  lemma {:induction false} ScaledTimeoutExact(base: real, length: nat, cap: real)
    requires 0.0 <= base <= cap
    ensures length as real <= (cap - base) * MIN_BULK_THROUGHPUT ==>
              ScaledTimeout(base, length, cap) == base + length as real / MIN_BULK_THROUGHPUT
    ensures length as real >= (cap - base) * MIN_BULK_THROUGHPUT <==> ScaledTimeout(base, length, cap) == cap
  {
    var room := (cap - base) * MIN_BULK_THROUGHPUT;
    assert room / MIN_BULK_THROUGHPUT == cap - base;
    TransferTime(length, length);
  }

  /** A POST gets its base and a second for each 64 KiB, at most a minute, unless the base alone is longer. */
  lemma {:induction false} PostTimeoutSeconds(base: real, length: nat)
    ensures PostTimeout(base, 0) == base
    ensures 0.0 <= base <= 60.0 ==>
              PostTimeout(base, length) ==
              if base + length as real / 65536.0 <= 60.0 then base + length as real / 65536.0 else 60.0
    ensures base > 60.0 ==> PostTimeout(base, length) == base
  {
    TransferTime(0, length);
  }

  /** A response frame gets its base and a second for each 64 KiB, at most 45 seconds, unless the base is longer. */
  lemma {:induction false} BulkSendTimeoutSeconds(base: real, length: nat)
    ensures BulkSendTimeout(base, 0) == base
    ensures 0.0 <= base <= 45.0 ==>
              BulkSendTimeout(base, length) ==
              if base + length as real / 65536.0 <= 45.0 then base + length as real / 65536.0 else 45.0
    ensures base > 45.0 ==> BulkSendTimeout(base, length) == base
  {
    TransferTime(0, length);
  }
}
