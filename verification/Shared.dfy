/** Types shared by the component models. */
module Options {
  datatype Option<+T> = None | Some(value: T)
}

/** What a full queue does with the next task. */
module QueuePolicies {
  datatype QueuePolicy = DropNewest | DropOldest | Block
}

/** Remainders of positions that run around a ring. */
module Remainders {
  lemma MultipleAtLeast(k: int, n: nat)
    requires k >= 1
    ensures k * n >= n
  {
    if k > 1 {
      MultipleAtLeast(k - 1, n);
      assert k * n == (k - 1) * n + n;
    }
  }

  lemma RemainderOf(q: int, rem: nat, x: nat, capacity: nat)
    requires rem < capacity && x == q * capacity + rem
    ensures x % capacity == rem
  {
    var q' := x / capacity;
    var rem' := x % capacity;
    assert x == q' * capacity + rem';
    if q > q' {
      MultipleAtLeast(q - q', capacity);
      assert false;
    }
    if q < q' {
      MultipleAtLeast(q' - q, capacity);
      assert false;
    }
  }

  /** Moving at most one lap ahead moves the slot ahead, with one wrap at the end of the ring. */
  lemma Advance(a: nat, d: nat, n: nat)
    requires 0 < n && d <= n
    ensures (a + d) % n == if a % n + d < n then a % n + d else a % n + d - n
  {
    var q, rem := a / n, a % n;
    assert a == q * n + rem;
    if rem + d < n {
      RemainderOf(q, rem + d, a + d, n);
    } else {
      assert (q + 1) * n == q * n + n;
      RemainderOf(q + 1, rem + d - n, a + d, n);
    }
  }
}
