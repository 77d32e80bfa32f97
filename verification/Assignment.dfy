/** Balanced, contiguous vBucket slices. */
module Assignment {
  import opened Base

  const MAX_VBUCKETS: nat := 65536

  datatype VBucketAssignment = VBucketAssignment(generation: nat, vbuckets: set<nat>)

  datatype AssignmentError = InvalidVBucketCount | InvalidTotal | InvalidMember

  /** The identifiers from `low` up to, but not including, `high`. */
  function Range(low: nat, high: nat): (r: set<nat>)
    ensures forall v :: v in r <==> low <= v < high
    decreases high
  {
    if high <= low then {} else Range(low, high - 1) + {high - 1}
  }

  /** First vBucket of the member with this zero-based index. */
  function Start(count: nat, total: nat, index: nat): nat
    requires 1 <= total
  {
    index * (count / total) + Min(index, count % total)
  }

  function Size(count: nat, total: nat, index: nat): nat
    requires 1 <= total
  {
    count / total + (if index < count % total then 1 else 0)
  }

  function Slice(count: nat, total: nat, index: nat): set<nat>
    requires 1 <= total
  {
    Range(Start(count, total, index), Start(count, total, index) + Size(count, total, index))
  }

  /** Member numbers are one-based. */
  function Balanced(generation: nat, count: nat, member: nat, total: nat): Result<VBucketAssignment, AssignmentError> {
    if count == 0 || count > MAX_VBUCKETS then Err(InvalidVBucketCount)
    else if total == 0 || total > count then Err(InvalidTotal)
    else if member == 0 || member > total then Err(InvalidMember)
    else Ok(VBucketAssignment(generation, Slice(count, total, member - 1)))
  }

  lemma {:induction false} QuotientTimes(count: nat, total: nat)
    requires 1 <= total
    ensures total * (count / total) + count % total == count
  {
  }

  /** Each slice ends where the next one starts. */
  lemma {:induction false} SlicesAreAdjacent(count: nat, total: nat, index: nat)
    requires 1 <= total
    ensures Start(count, total, index + 1) == Start(count, total, index) + Size(count, total, index)
  {
    var base := count / total;
    assert (index + 1) * base == index * base + base;
  }

  lemma {:induction false} SlicesSpanTheRange(count: nat, total: nat)
    requires 1 <= total
    ensures Start(count, total, 0) == 0
    ensures Start(count, total, total) == count
  {
    QuotientTimes(count, total);
  }

  lemma {:induction false} StartsIncrease(count: nat, total: nat, i: nat, j: nat)
    requires 1 <= total && i <= j
    ensures Start(count, total, i) <= Start(count, total, j)
    ensures i < j ==> Start(count, total, i) + Size(count, total, i) <= Start(count, total, j)
    decreases j - i
  {
    if i < j {
      SlicesAreAdjacent(count, total, i);
      StartsIncrease(count, total, i + 1, j);
    }
  }

  lemma {:induction false} SlicesAreDisjoint(count: nat, total: nat, i: nat, j: nat)
    requires 1 <= total && i != j
    ensures Slice(count, total, i) !! Slice(count, total, j)
  {
    if i < j {
      StartsIncrease(count, total, i, j);
    } else {
      StartsIncrease(count, total, j, i);
    }
  }

  /** The member that owns a vBucket below `Start(k)`. */
  lemma {:induction false} SomeSliceOwns(count: nat, total: nat, k: nat, v: nat) returns (index: nat)
    requires 1 <= total && v < Start(count, total, k)
    ensures index < k && v in Slice(count, total, index)
    decreases k
  {
    SlicesAreAdjacent(count, total, k - 1);
    if v < Start(count, total, k - 1) {
      index := SomeSliceOwns(count, total, k - 1, v);
    } else {
      index := k - 1;
    }
  }

  /** For all members up to the vBucket count: the slices are nonempty, within the range and
      pairwise disjoint, every vBucket has an owner, and sizes differ by at most one with the
      larger slices first. */
  lemma {:induction false} BalancedPartition(generation: nat, count: nat, total: nat)
    requires 1 <= total <= count <= MAX_VBUCKETS
    ensures forall m :: 1 <= m <= total ==>
              && Balanced(generation, count, m, total).Ok?
              && Balanced(generation, count, m, total).value.vbuckets != {}
              && (forall v :: v in Balanced(generation, count, m, total).value.vbuckets ==> v < count)
    ensures forall m, n :: 1 <= m < n <= total ==>
              Balanced(generation, count, m, total).value.vbuckets !!
              Balanced(generation, count, n, total).value.vbuckets
    ensures forall v :: 0 <= v < count ==> Owned(generation, count, total, v)
    ensures forall i, j :: 0 <= i < j < total ==>
              Size(count, total, j) <= Size(count, total, i) <= Size(count, total, j) + 1
  {
    SlicesSpanTheRange(count, total);
    forall m | 1 <= m <= total
      ensures Balanced(generation, count, m, total).Ok?
      ensures Balanced(generation, count, m, total).value.vbuckets != {}
      ensures forall v :: v in Balanced(generation, count, m, total).value.vbuckets ==> v < count
    {
      SlicesAreAdjacent(count, total, m - 1);
      StartsIncrease(count, total, m, total);
      assert Size(count, total, m - 1) >= 1;
      assert Start(count, total, m - 1) in Slice(count, total, m - 1);
    }
    forall m, n | 1 <= m < n <= total
      ensures Balanced(generation, count, m, total).value.vbuckets !!
              Balanced(generation, count, n, total).value.vbuckets
    {
      SlicesAreDisjoint(count, total, m - 1, n - 1);
    }
    forall v | 0 <= v < count
      ensures Owned(generation, count, total, v)
    {
      var index := SomeSliceOwns(count, total, total, v);
      assert OwnedBy(generation, count, total, v, index + 1);
    }
  }

  ghost predicate OwnedBy(generation: nat, count: nat, total: nat, v: nat, m: nat) {
    Balanced(generation, count, m, total).Ok? && v in Balanced(generation, count, m, total).value.vbuckets
  }

  ghost predicate Owned(generation: nat, count: nat, total: nat, v: nat) {
    exists m :: 1 <= m <= total && OwnedBy(generation, count, total, v, m)
  }
}
