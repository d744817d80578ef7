/** The process-wide file-descriptor budget the admission gate rests on. */
module ResourceBudget {

  const INT64_MIN: int := -0x8000_0000_0000_0000
  const INT64_MAX: int := 0x7FFF_FFFF_FFFF_FFFF

  /** A value of -1 means the platform cannot report that part. */
  datatype Snapshot = Snapshot(softLimit: int, openCount: int)

  predicate Known(snapshot: Snapshot) {
    snapshot.softLimit >= 0 && snapshot.openCount >= 0
  }

  function Min(a: int, b: int): int { if a < b then a else b }

  function Max(a: int, b: int): int { if a < b then b else a }

  /** C++ integer division: truncation toward zero. */
  function TruncDiv(a: int, b: int): int
    requires b > 0
  {
    if a >= 0 then a / b else -((-a) / b)
  }

  function DescriptorReserve(softLimit: int): int {
    if softLimit <= 0 then 0 else Min(128, Max(16, TruncDiv(softLimit, 4)))
  }

  /** Operations that fit in what is left of the limit, or -1 when that is unknown. */
  function DescriptorOperationCapacity(snapshot: Snapshot, descriptorsPerOperation: int): int {
    if !Known(snapshot) || descriptorsPerOperation <= 0 then -1
    else
      var available := snapshot.softLimit - snapshot.openCount - DescriptorReserve(snapshot.softLimit);
      Max(0, TruncDiv(available, descriptorsPerOperation))
  }

  /** n more operations and the host's reserve all fit under the soft limit. */
  predicate Fits(snapshot: Snapshot, descriptorsPerOperation: int, n: int) {
    snapshot.openCount + n * descriptorsPerOperation + DescriptorReserve(snapshot.softLimit) <= snapshot.softLimit
  }

  /** The reserve is a quarter of the limit, never under 16 and never over 128;
      a limit it exceeds leaves nothing to hand out. */
  lemma ReserveBounds(softLimit: int)
    ensures softLimit <= 0 <==> DescriptorReserve(softLimit) == 0
    ensures softLimit > 0 ==> 16 <= DescriptorReserve(softLimit) <= 128
    ensures 64 <= softLimit <= 512 ==> DescriptorReserve(softLimit) == softLimit / 4
    ensures softLimit > 0 ==> (DescriptorReserve(softLimit) > softLimit <==> softLimit < 16)
  {
  }

  lemma DivisionIsLargestMultiple(a: nat, b: int, n: nat)
    requires b > 0
    ensures n <= a / b <==> n * b <= a
  {
    var q := a / b;
    assert a == q * b + a % b;
    if n <= q {
      MoreMultiples(n, q, b);
    } else {
      MoreMultiples(q + 1, n, b);
      assert (q + 1) * b == q * b + b;
    }
  }

  lemma MoreMultiples(m: int, n: int, b: int)
    requires m <= n && b > 0
    ensures m * b <= n * b
  {
    assert n * b - m * b == (n - m) * b;
  }

  /** The capacity is the largest number of operations that fits, for every snapshot the
      platform could report; nothing at all fits exactly when the capacity is 0. */
  lemma CapacityIsLargestThatFits(snapshot: Snapshot, descriptorsPerOperation: int, n: nat)
    requires Known(snapshot) && descriptorsPerOperation > 0
    ensures n <= DescriptorOperationCapacity(snapshot, descriptorsPerOperation)
            <==> n == 0 || Fits(snapshot, descriptorsPerOperation, n)
  {
    var available := snapshot.softLimit - snapshot.openCount - DescriptorReserve(snapshot.softLimit);
    if available >= 0 {
      DivisionIsLargestMultiple(available, descriptorsPerOperation, n);
    } else if n > 0 {
      assert n * descriptorsPerOperation >= 1;
    }
  }

  /** -1 is returned exactly when the budget cannot be known. */
  lemma CapacityUnknown(snapshot: Snapshot, descriptorsPerOperation: int)
    ensures DescriptorOperationCapacity(snapshot, descriptorsPerOperation) == -1
            <==> !Known(snapshot) || descriptorsPerOperation <= 0
    ensures DescriptorOperationCapacity(snapshot, descriptorsPerOperation) >= -1
  {
  }

  /** What is left of the limit is computed in 64 bits. Taking off what is open always fits; taking off
      the reserve overflows exactly when the limit is one of the first fourteen and the reported open
      count is within fourteen, less the limit, of the largest 64-bit value. */
  lemma SubtractionFits(snapshot: Snapshot)
    requires Known(snapshot) && snapshot.softLimit <= INT64_MAX && snapshot.openCount <= INT64_MAX
    ensures INT64_MIN <= snapshot.softLimit - snapshot.openCount <= INT64_MAX
    ensures var available := snapshot.softLimit - snapshot.openCount - DescriptorReserve(snapshot.softLimit);
            && available <= INT64_MAX
            && (available < INT64_MIN <==>
                  1 <= snapshot.softLimit <= 14 && snapshot.openCount >= INT64_MAX - (14 - snapshot.softLimit))
  {
    ReserveBounds(snapshot.softLimit);
    if snapshot.softLimit > 14 {
      ReserveIsMost(snapshot.softLimit);
    }
  }

  /** The reserve exceeds the limit by two or more only up to fourteen. */
  lemma ReserveIsMost(softLimit: int)
    requires softLimit > 14
    ensures DescriptorReserve(softLimit) <= softLimit + 1
  {
  }
}
