/** Splitting the UUID space into ranges, as the partitioned scans of the link graph do. */
module Partition {
  import opened Uuids

  datatype RangeResult = Range(from: Uuid, to: Uuid) | InvalidPartition | BadLength

  const SMALLEST_16_BYTES: nat := 0x1000000_00000000_00000000_00000000

  function Size(n: nat): nat
    requires n > 0
  {
    MAX_VALUE / n
  }

  function Start(p: nat, n: nat): nat
    requires p < n
  {
    if p == 0 then MIN_VALUE else p * Size(n)
  }

  function End(p: nat, n: nat): nat
    requires p < n
  {
    if p == n - 1 then MAX_VALUE else (p + 1) * Size(n)
  }

  /** The inner boundaries of the partition have 16 bytes once leading zeros are stripped. */
  predicate Encodable(p: nat, n: nat)
    requires p < n
  {
    && (p == 0 || SMALLEST_16_BYTES <= p * Size(n))
    && (p == n - 1 || SMALLEST_16_BYTES <= (p + 1) * Size(n))
  }

  lemma SizeBound(p: nat, n: nat)
    requires 0 < n && p <= n
    ensures p * Size(n) <= MAX_VALUE
  {
    var s := Size(n);
    assert n * s <= MAX_VALUE;
    assert p * s <= n * s;
  }

  lemma Boundary(k: nat)
    requires k <= MAX_VALUE
    ensures |BytesOf(k)| == 16 <==> SMALLEST_16_BYTES <= k
    ensures Value(BytesOf(k)) == k
  {
    hide Value, BytesOf, Pow256;
    SixteenBytes(k);
    PowValues();
    BytesOfValue(k);
  }

  method PartitionRange(partition: int, numPartitions: int) returns (r: RangeResult)
    ensures r.InvalidPartition? <==> !(0 <= partition < numPartitions)
    ensures r.Range? <==> 0 <= partition < numPartitions && Encodable(partition, numPartitions)
    ensures r.Range? <==>
              && 0 <= partition < numPartitions
              && (partition == 0 || 0x1000000_00000000_00000000_00000000 <= partition * (MAX_VALUE / numPartitions))
              && (partition == numPartitions - 1 || 0x1000000_00000000_00000000_00000000 <= (partition + 1) * (MAX_VALUE / numPartitions))
    ensures r.Range? ==> Number(r.from) == partition * (MAX_VALUE / numPartitions)
    ensures r.Range? ==>
              Number(r.to) == if partition == numPartitions - 1 then MAX_VALUE else (partition + 1) * (MAX_VALUE / numPartitions)
    ensures r.Range? ==> Number(r.from) == Start(partition, numPartitions) && Number(r.to) == End(partition, numPartitions)
  {
    hide Value, BytesOf, Pow256, Size;
    if partition < 0 || partition >= numPartitions { return InvalidPartition; }
    Extremes();
    SizeIs(numPartitions);
    var from, to := NIL_UUID, MAX_UUID;
    var partSize: nat := MAX_VALUE;
    partSize := partSize / numPartitions;
    var tokenRange: nat := 0;
    if partition != 0 {
      tokenRange := partSize * partition;
      SizeBound(partition, numPartitions);
      Boundary(tokenRange);
      if |BytesOf(tokenRange)| != 16 { return BadLength; }
      from := Uuid(BytesOf(tokenRange));
    }
    if partition != numPartitions - 1 {
      tokenRange := partSize * (partition + 1);
      SizeBound(partition + 1, numPartitions);
      Boundary(tokenRange);
      if |BytesOf(tokenRange)| != 16 { return BadLength; }
      to := Uuid(BytesOf(tokenRange));
    }
    return Range(from, to);
  }

  lemma SizeIs(n: nat)
    requires n > 0
    ensures Size(n) == MAX_VALUE / n
  {
  }

  /** Every boundary can be encoded exactly if there are at most 255 partitions. */
  lemma EncodableIff(n: nat)
    requires n > 0
    ensures (forall p: nat :: p < n ==> Encodable(p, n)) <==> n <= 255
  {
    if n <= 255 {
      assert SMALLEST_16_BYTES * n <= MAX_VALUE;
      LargeSize(n);
      forall p: nat | p < n ensures Encodable(p, n) { Multiples(p, Size(n)); }
    } else {
      SmallSize(n);
      assert !Encodable(0, n);
    }
  }

  lemma Quotient(m: nat, n: nat)
    requires n > 0
    ensures (m / n) * n <= m < (m / n + 1) * n
  {
  }

  lemma Product(a: nat, b: nat, c: nat, d: nat)
    requires a <= b && c <= d
    ensures a * c <= b * d
  {
  }

  lemma LargeSize(n: nat)
    requires 0 < n && SMALLEST_16_BYTES * n <= MAX_VALUE
    ensures SMALLEST_16_BYTES <= Size(n)
  {
    var s := Size(n);
    Quotient(MAX_VALUE, n);
    hide Size;
    if s < SMALLEST_16_BYTES { Product(s + 1, SMALLEST_16_BYTES, n, n); }
  }

  lemma SmallSize(n: nat)
    requires n > 255
    ensures Size(n) < SMALLEST_16_BYTES
  {
    var s := Size(n);
    Quotient(MAX_VALUE, n);
    hide Size;
    if s >= SMALLEST_16_BYTES { Product(SMALLEST_16_BYTES, s, 256, n); }
  }

  lemma Multiples(p: nat, s: nat)
    ensures p > 0 ==> s <= p * s
    ensures s <= (p + 1) * s
  {
  }

  /** All partitions have the same width, but the last one is longer by the remainder, which is less
      than their number. */
  lemma PartitionWidth(p: nat, n: nat)
    requires p < n
    ensures p < n - 1 ==> End(p, n) - Start(p, n) == MAX_VALUE / n
    ensures p == n - 1 ==> End(p, n) - Start(p, n) == MAX_VALUE / n + MAX_VALUE % n
    ensures p == n - 1 ==> MAX_VALUE / n <= End(p, n) - Start(p, n) < MAX_VALUE / n + n
    ensures Start(p, n) == p * (MAX_VALUE / n)
  {
    var s := Size(n);
    assert (p + 1) * s == p * s + s;
    assert MAX_VALUE == n * s + MAX_VALUE % n;
  }

  ghost predicate InPartition(v: nat, p: nat, n: nat)
    requires p < n
  {
    Start(p, n) <= v < End(p, n)
  }

  lemma {:induction false} Locate(v: nat, p: nat, n: nat) returns (q: nat)
    requires p < n && v < MAX_VALUE && Start(p, n) <= v
    ensures p <= q < n && InPartition(v, q, n)
    decreases n - p
  {
    if v < End(p, n) { q := p; } else { q := Locate(v, p + 1, n); }
  }

  lemma Apart(p: nat, q: nat, n: nat)
    requires p < q < n
    ensures End(p, n) <= Start(q, n)
  {
    assert (p + 1) * Size(n) <= q * Size(n);
  }

  /** The ranges are adjacent and cover [0, 2^128-1) exactly: each number below the maximum lies in
      exactly one of them and the maximum in none. */
  lemma PartitionCover(v: nat, n: nat)
    requires 0 < n && v <= MAX_VALUE
    ensures forall p: nat :: p < n - 1 ==> End(p, n) == Start(p + 1, n)
    ensures (exists p: nat :: p < n && InPartition(v, p, n)) <==> v < MAX_VALUE
    ensures forall p: nat, q: nat :: p < n && q < n && InPartition(v, p, n) && InPartition(v, q, n) ==> p == q
  {
    if v < MAX_VALUE { var q := Locate(v, 0, n); }
    forall p: nat | p < n ensures End(p, n) <= MAX_VALUE { SizeBound(p + 1, n); }
    forall p: nat, q: nat | p < n && q < n && InPartition(v, p, n) && InPartition(v, q, n) ensures p == q {
      if p < q { Apart(p, q, n); } else if q < p { Apart(q, p, n); }
    }
  }
}
