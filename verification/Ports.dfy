/** The host port pool of an agent (agent/internal/ports/allocator.go). */
module Ports {
  import opened Wrappers

  datatype PortError = NoPorts | OutOfRange | AlreadyAllocated | NotAvailable | NotAllocated

  /** The two maps, as the sets of ports mapped to true. */
  datatype Pool = Pool(available: set<int>, inUse: set<int>)

  function Range(min: int, max: int): (r: set<int>)
    ensures forall p :: p in r <==> min <= p <= max
    ensures |r| == if min <= max then max - min + 1 else 0
    decreases max - min
  {
    if min > max then {} else Range(min, max - 1) + {max}
  }

  /** Every port of the range is in exactly one of the two maps. */
  ghost predicate Partitions(pool: Pool, range: set<int>) {
    pool.available !! pool.inUse && pool.available + pool.inUse == range
  }

  /** So the counters InUse and Available always add up to the size of the range. */
  lemma CountsAddUp(pool: Pool, range: set<int>)
    requires Partitions(pool, range)
    ensures |pool.inUse| + |pool.available| == |range|
  {
  }

  class Allocator {
    var available: set<int>
    var inUse: set<int>
    const min: int
    const max: int

    function State(): Pool
      reads this
    {
      Pool(available, inUse)
    }

    ghost predicate Valid()
      reads this
    {
      Partitions(State(), Range(min, max))
    }

    constructor (min: int, max: int)
      ensures Valid() && this.min == min && this.max == max && inUse == {}
    {
      this.min, this.max := min, max;
      inUse := {};
      var ports: set<int> := {};
      var p := min;
      while p <= max
        invariant min <= p && (p <= max + 1 || p == min)
        invariant forall q :: q in ports <==> min <= q < p
      {
        ports := ports + {p};
        p := p + 1;
      }
      available := ports;
      assert ports == Range(min, max);
    }

    /** Any available port, or an error when there is none. */
    method Allocate() returns (r: Result<int, PortError>)
      requires Valid()
      modifies this
      ensures Valid()
      ensures r.Failure? <==> old(available) == {}
      ensures r.Failure? ==> State() == old(State())
      ensures r.Success? ==> r.value in old(available)
                             && available == old(available) - {r.value} && inUse == old(inUse) + {r.value}
    {
      if available == {} {
        return Failure(NoPorts);
      }
      var port :| port in available;
      available := available - {port};
      inUse := inUse + {port};
      return Success(port);
    }

    method AllocateSpecific(port: int) returns (r: Result<(), PortError>)
      requires Valid()
      modifies this
      ensures Valid()
      ensures r == if port < min || port > max then Failure(OutOfRange)
                   else if port in old(inUse) then Failure(AlreadyAllocated)
                   else Success(())
      ensures State() == if r.Success? then Pool(old(available) - {port}, old(inUse) + {port}) else old(State())
    {
      if port < min || port > max { return Failure(OutOfRange); }
      if port in inUse { return Failure(AlreadyAllocated); }
      if port !in available { return Failure(NotAvailable); }
      available := available - {port};
      inUse := inUse + {port};
      return Success(());
    }

    method Release(port: int) returns (r: Result<(), PortError>)
      requires Valid()
      modifies this
      ensures Valid()
      ensures r == if port in old(inUse) then Success(()) else Failure(NotAllocated)
      ensures State() == if r.Success? then Pool(old(available) + {port}, old(inUse) - {port}) else old(State())
    {
      if port !in inUse { return Failure(NotAllocated); }
      inUse := inUse - {port};
      available := available + {port};
      return Success(());
    }
  }
}
