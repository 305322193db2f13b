/** The mutable port manager: a map of allocation records updated in place. */
module PortManagement {
  import opened Wrappers
  import L = Leases

  datatype PortError = NoAvailablePorts | PortNotAllocated

  class Allocation {
    var sessionID: string
    var allocatedAt: int
    var releasedAt: Option<int>

    constructor (sessionID: string, now: int)
      ensures View() == L.Lease(sessionID, now, None)
    {
      this.sessionID, allocatedAt, releasedAt := sessionID, now, None;
    }

    function View(): L.Lease
      reads this
    {
      L.Lease(sessionID, allocatedAt, releasedAt)
    }
  }

  class PortManager {
    const minPort: int
    const maxPort: int
    const gracePeriod: int
    var allocations: map<int, Allocation>

    /** No two ports share an allocation record. */
    ghost predicate Valid()
      reads this, allocations.Values
    {
      forall p, q :: p in allocations && q in allocations && allocations[p] == allocations[q] ==> p == q
    }

    ghost function Table(): L.Table
      reads this, allocations.Values
    {
      map p | p in allocations :: allocations[p].View()
    }

    function Config(): L.Config {
      L.Config(minPort, maxPort, gracePeriod)
    }

    constructor (minPort: int, maxPort: int, gracePeriod: int)
      ensures Valid() && Table() == map[]
      ensures Config() == L.Config(minPort, maxPort, gracePeriod)
    {
      this.minPort, this.maxPort, this.gracePeriod := minPort, maxPort, gracePeriod;
      allocations := map[];
    }

    /** First-fit allocation at time `now`. */
    method Allocate(sessionID: string, now: int) returns (r: Result<int, PortError>)
      requires Valid()
      modifies this
      ensures Valid() && fresh(allocations.Values - old(allocations.Values))
      ensures r.Ok? ==> r.value in allocations && fresh(allocations[r.value])
      ensures Table() == L.Allocate(Config(), old(Table()), sessionID, now)
      ensures r == match L.Choose(Config(), old(Table()), now)
                   case Some(p) => Ok(p)
                   case None => Err(NoAvailablePorts)
      ensures r.Ok? ==> minPort <= r.value <= maxPort && Table() == old(Table())[r.value := L.Lease(sessionID, now, None)]
      ensures r.Err? ==> Table() == old(Table())
    {
      var port := minPort;
      while port <= maxPort
        invariant minPort <= port
        invariant port > maxPort + 1 ==> port == minPort
        invariant forall p :: minPort <= p < port ==> !L.Eligible(gracePeriod, Table(), p, now)
        invariant allocations == old(allocations) && Table() == old(Table())
      {
        if port !in allocations
        || (allocations[port].releasedAt.Some? && now - allocations[port].releasedAt.value >= gracePeriod)
        {
          L.ChooseIsLeast(Config(), Table(), now, port);
          var a := new Allocation(sessionID, now);
          allocations := allocations[port := a];
          assert Table() == old(Table())[port := a.View()];
          return Ok(port);
        }
        port := port + 1;
      }
      return Err(NoAvailablePorts);
    }

    /** Marks the record of a live port as released; anything else is an error and changes nothing. */
    method Release(port: int, now: int) returns (r: Result<(), PortError>)
      requires Valid()
      modifies if port in allocations then {allocations[port]} else {}
      ensures Valid() && allocations == old(allocations)
      ensures Table() == L.Release(old(Table()), port, now)
      ensures r == if L.Live(old(Table()), port) then Ok(()) else Err(PortNotAllocated)
    {
      if port !in allocations || allocations[port].releasedAt.Some? {
        return Err(PortNotAllocated);
      }
      allocations[port].releasedAt := Some(now);
      assert forall q :: q in allocations && q != port ==> allocations[q].View() == old(allocations[q].View());
      return Ok(());
    }

    /** Availability of a single port; a port outside the range that was never allocated counts as available. */
    method IsAvailable(port: int, now: int) returns (available: bool)
      ensures available <==> L.Eligible(gracePeriod, Table(), port, now)
    {
      if port !in allocations {
        return true;
      }
      if allocations[port].releasedAt.Some? && now - allocations[port].releasedAt.value >= gracePeriod {
        return true;
      }
      return false;
    }

    /** A copy of the record: later releases do not change what was returned. */
    method GetAllocation(port: int) returns (copy: Option<L.Lease>)
      ensures copy.Some? <==> port in Table()
      ensures copy.Some? ==> copy.value == Table()[port]
    {
      if port !in allocations {
        return None;
      }
      return Some(allocations[port].View());
    }

    method AvailableCount(now: int) returns (count: nat)
      ensures count == |L.EligiblePorts(Config(), Table(), now)|
    {
      count := 0;
      var port := minPort;
      ghost var t := Table();
      ghost var seen: set<int> := {};
      while port <= maxPort
        invariant minPort <= port
        invariant port > maxPort + 1 ==> port == minPort
        invariant forall p :: p in seen <==> minPort <= p < port && L.Eligible(gracePeriod, t, p, now)
        invariant count == |seen|
      {
        assert port in allocations ==> t[port] == allocations[port].View();
        if port !in allocations || (allocations[port].releasedAt.Some? && now - allocations[port].releasedAt.value >= gracePeriod) {
          count := count + 1;
          seen := seen + {port};
        }
        port := port + 1;
      }
      L.EligibleMembers(Config(), t, now);
      ghost var eligible := L.EligiblePorts(Config(), t, now);
      assert forall p :: p in seen <==> p in eligible;
      assert seen == eligible;
    }
  }
}
