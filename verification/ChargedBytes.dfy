/**
 * `ChargedBytes`, the buffer that spools a chunk: it grows by its own rule, and every byte of
 * its capacity is charged to the virtual machine before it exists.
 */
module ChargedBytes {
  import opened Checked

  type Byte = b: nat | b < 256
  type Bytes = seq<Byte>

  datatype Fault = Memory | Budget

  datatype Result = Done | Failed(fault: Fault)

  /** The capacity asked for when `required` bytes no longer fit. */
  function NextCapacity(required: nat, capacity: nat, limit: nat): nat {
    Min(Max(required, 2 * capacity), limit)
  }

  /** The machine's account of host allocations. */
  class Account {
    var charged: nat

    constructor ()
      ensures charged == 0
    {
      charged := 0;
    }

    /** Charges, or refuses and changes nothing. */
    method Reserve(bytes: nat) returns (ok: bool)
      modifies this
      ensures charged == old(charged) + if ok then bytes else 0
    {
      ok := *;
      if ok {
        charged := charged + bytes;
      }
    }

    method Release(bytes: nat)
      requires bytes <= charged
      modifies this
      ensures charged == old(charged) - bytes
    {
      charged := charged - bytes;
    }
  }

  /**
   * Regrowing has copied less than twice the length, and, while there is room to double
   * below `limit`, no more than the capacity.
   */
  predicate Amortised(length: nat, capacity: nat, copied: nat, limit: nat) {
    (copied == 0 || copied < 2 * length) && (limit <= capacity || copied <= capacity)
  }

  lemma GrowthIsAmortised(length: nat, part: nat, capacity: nat, reserved: nat, copied: nat, limit: nat)
    requires Amortised(length, capacity, copied, limit) && length <= capacity
    requires capacity < length + part <= limit && NextCapacity(length + part, capacity, limit) <= reserved
    ensures Amortised(length + part, reserved, copied + length, limit)
  {
  }

  class Buffer {
    var bytes: Bytes
    var capacity: nat
    var base: nat
    var extra: nat
    /** Bytes moved by regrowing so far. */
    ghost var copied: nat

    /** The charges held are exactly the capacity. */
    ghost predicate Valid()
      reads this
    {
      |bytes| <= capacity && base + extra == capacity
    }

    ghost function State(): Spool
      reads this
    {
      Spool(bytes, capacity, copied)
    }

    constructor ()
      ensures Valid() && State() == Spool([], 0, 0)
    {
      bytes, capacity, base, extra, copied := [], 0, 0, 0, 0;
    }

    /** Replaces the storage by one for `required` bytes; the old charges go only when the new ones hold. */
    method Grow(vm: Account, required: nat, limit: nat) returns (r: Result)
      requires Valid() && capacity <= vm.charged && capacity < required <= limit
      modifies this`capacity, this`base, this`extra, this`copied, vm
      ensures Valid() && capacity <= vm.charged
      ensures vm.charged - capacity == old(vm.charged - capacity)
      ensures r.Done? ==> copied == old(copied) + |bytes| && NextCapacity(required, old(capacity), limit) <= capacity
      ensures r.Done? ==>
                base == if 2 * old(capacity) <= required then required
                        else if 2 * old(capacity) <= limit then 2 * old(capacity) else limit
      ensures r.Failed? ==>
                capacity == old(capacity) && base == old(base) && extra == old(extra) && copied == old(copied)
    {
      var wanted := NextCapacity(required, capacity, limit);
      var ok := vm.Reserve(wanted);
      if !ok {
        r := AnyFault();
        return;
      }
      var reserves := *;
      if !reserves {
        vm.Release(wanted);
        r := AnyFault();
        return;
      }
      var reserved: nat :| wanted <= reserved;
      var surplus := reserved - wanted;
      if surplus != 0 {
        var more := vm.Reserve(surplus);
        if !more {
          vm.Release(wanted);
          r := AnyFault();
          return;
        }
      }
      var commits := *;
      if !commits {
        vm.Release(reserved);
        r := AnyFault();
        return;
      }
      vm.Release(capacity);
      copied := copied + |bytes|;
      capacity, base, extra := reserved, wanted, surplus;
      return Done;
    }

    /**
     * Appends everything, or fails and changes nothing, whatever the allocator and the
     * account answer. Other charges on the account stay.
     */
    method Append(vm: Account, part: Bytes, limit: nat) returns (r: Result)
      requires Valid() && capacity <= vm.charged
      modifies this, vm
      ensures Valid() && capacity <= vm.charged
      ensures var a := if r.Done? then Accepted(part, limit, capacity) else Refused(part, limit);
              Possible(old(State()), a) && State() == After(old(State()), a)
      ensures vm.charged - capacity == old(vm.charged - capacity)
      ensures r.Failed? ==> base == old(base) && extra == old(extra) && vm.charged == old(vm.charged)
      ensures limit < old(|bytes|) + |part| ==> r == Failed(Budget)
      ensures old(|bytes|) + |part| <= Min(limit, old(capacity)) ==> r.Done?
      ensures old(Amortised(|bytes|, capacity, copied, limit)) ==> Amortised(|bytes|, capacity, copied, limit)
    {
      var required := |bytes| + |part|;
      if limit < required {
        return Failed(Budget);
      }
      if capacity < required {
        r := Grow(vm, required, limit);
        if r.Failed? {
          return;
        }
        if old(Amortised(|bytes|, capacity, copied, limit)) {
          GrowthIsAmortised(|bytes|, |part|, old(capacity), capacity, old(copied), limit);
        }
      }
      bytes := bytes + part;
      return Done;
    }
  }

  /** The machine says which fault it was. */
  method AnyFault() returns (r: Result)
    ensures r.Failed?
  {
    var fault: Fault := *;
    return Failed(fault);
  }

  // Runs of appends.

  /** One append as seen from outside: the part, the limit, and what the machine did. */
  datatype Attempt = Accepted(part: Bytes, limit: nat, reserved: nat) | Refused(part: Bytes, limit: nat)

  datatype Spool = Spool(bytes: Bytes, capacity: nat, copied: nat)

  ghost predicate Possible(s: Spool, a: Attempt) {
    a.Accepted? ==>
      var required := |s.bytes| + |a.part|;
      required <= a.limit && (s.capacity < required ==> NextCapacity(required, s.capacity, a.limit) <= a.reserved)
  }

  function After(s: Spool, a: Attempt): Spool {
    if a.Refused? then s
    else if s.capacity < |s.bytes| + |a.part| then Spool(s.bytes + a.part, a.reserved, s.copied + |s.bytes|)
    else s.(bytes := s.bytes + a.part)
  }

  ghost predicate Run(s: Spool, attempts: seq<Attempt>)
    decreases |attempts|
  {
    attempts != [] ==> Possible(s, attempts[0]) && Run(After(s, attempts[0]), attempts[1..])
  }

  function AfterAll(s: Spool, attempts: seq<Attempt>): Spool
    decreases |attempts|
  {
    if attempts == [] then s else AfterAll(After(s, attempts[0]), attempts[1..])
  }

  function AcceptedBytes(attempts: seq<Attempt>): Bytes {
    if attempts == [] then []
    else (if attempts[0].Accepted? then attempts[0].part else []) + AcceptedBytes(attempts[1..])
  }

  /** The limit never rises; every caller passes the same one each time. */
  predicate NeverRises(attempts: seq<Attempt>) {
    forall i, j :: 0 <= i < j < |attempts| ==> attempts[j].limit <= attempts[i].limit
  }

  /** However the text is cut and whichever appends fail, the contents are the accepted parts in order. */
  lemma {:induction false} ContentsAreAccepted(s: Spool, attempts: seq<Attempt>)
    ensures AfterAll(s, attempts).bytes == s.bytes + AcceptedBytes(attempts)
    decreases |attempts|
  {
    if attempts != [] {
      ContentsAreAccepted(After(s, attempts[0]), attempts[1..]);
    }
  }

  lemma {:induction false} RunIsAmortised(s: Spool, attempts: seq<Attempt>)
    requires Run(s, attempts) && NeverRises(attempts) && |s.bytes| <= s.capacity
    requires attempts != [] ==> Amortised(|s.bytes|, s.capacity, s.copied, attempts[0].limit)
    requires s.copied == 0 || s.copied < 2 * |s.bytes|
    ensures var end := AfterAll(s, attempts); end.copied == 0 || end.copied < 2 * |end.bytes|
    decreases |attempts|
  {
    if attempts != [] {
      var a, t := attempts[0], After(s, attempts[0]);
      if a.Accepted? && s.capacity < |s.bytes| + |a.part| {
        GrowthIsAmortised(|s.bytes|, |a.part|, s.capacity, a.reserved, s.copied, a.limit);
      }
      assert Amortised(|t.bytes|, t.capacity, t.copied, a.limit);
      RunIsAmortised(t, attempts[1..]);
    }
  }

  /** From the empty buffer, regrowing copies less than twice the final length, if it copies at all. */
  lemma CopyingIsLinear(attempts: seq<Attempt>)
    requires Run(Spool([], 0, 0), attempts) && NeverRises(attempts)
    ensures var end := AfterAll(Spool([], 0, 0), attempts); end.copied == 0 || end.copied < 2 * |end.bytes|
  {
    RunIsAmortised(Spool([], 0, 0), attempts);
  }

  /** With a limit that rises with every byte each append would copy everything before it. */
  function Rising(n: nat): seq<Attempt> {
    if n == 0 then [] else Rising(n - 1) + [Accepted([0], n, n)]
  }

  lemma {:induction false} OneAttemptMore(s: Spool, attempts: seq<Attempt>, a: Attempt)
    ensures AfterAll(s, attempts + [a]) == After(AfterAll(s, attempts), a)
    ensures Run(s, attempts + [a]) <==> Run(s, attempts) && Possible(AfterAll(s, attempts), a)
    decreases |attempts|
  {
    var all := attempts + [a];
    if attempts == [] {
      assert all[1..] == [];
    } else {
      assert all[1..] == attempts[1..] + [a];
      OneAttemptMore(After(s, attempts[0]), attempts[1..], a);
    }
  }

  /** The bound fails as soon as the limit may rise: these runs copy a quadratic number of bytes. */
  lemma {:induction false} RisingLimitsCopyMore(n: nat)
    ensures Run(Spool([], 0, 0), Rising(n))
    ensures var end := AfterAll(Spool([], 0, 0), Rising(n));
            |end.bytes| == end.capacity == n && 2 * end.copied + n == n * n
  {
    if n != 0 {
      hide Run, AfterAll;
      RisingLimitsCopyMore(n - 1);
      OneAttemptMore(Spool([], 0, 0), Rising(n - 1), Accepted([0], n, n));
      SquareStep(n);
    }
  }

  lemma SquareStep(n: nat)
    requires 0 < n
    ensures (n - 1) * (n - 1) + 2 * n == n * n + 1
  {
  }
}
