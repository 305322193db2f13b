/**
 * The port allocator as a table of leases: which port goes to the next
 * session, what a release changes, and how the range splits into fresh,
 * live, quarantined and reusable ports at any instant.
 */
module Leases {
  import opened Wrappers

  datatype Lease = Lease(session: string, allocatedAt: int, releasedAt: Option<int>)

  type Table = map<int, Lease>

  datatype Config = Config(minPort: int, maxPort: int, grace: int)

  predicate Live(t: Table, p: int) {
    p in t && t[p].releasedAt.None?
  }

  predicate Eligible(grace: int, t: Table, p: int, now: int) {
    p !in t || (t[p].releasedAt.Some? && now - t[p].releasedAt.value >= grace)
  }

  /** The lowest eligible port of lo..hi. */
  function FirstEligible(grace: int, t: Table, lo: int, hi: int, now: int): (r: Option<int>)
    ensures r.None? ==> forall p :: lo <= p <= hi ==> !Eligible(grace, t, p, now)
    ensures r.Some? ==> lo <= r.value <= hi && Eligible(grace, t, r.value, now)
    ensures r.Some? ==> forall p :: lo <= p < r.value ==> !Eligible(grace, t, p, now)
    decreases hi - lo
  {
    if lo > hi then None
    else if Eligible(grace, t, lo, now) then Some(lo)
    else FirstEligible(grace, t, lo + 1, hi, now)
  }

  function Choose(c: Config, t: Table, now: int): Option<int> {
    FirstEligible(c.grace, t, c.minPort, c.maxPort, now)
  }

  function Allocate(c: Config, t: Table, session: string, now: int): Table {
    match Choose(c, t, now)
    case None => t
    case Some(p) => t[p := Lease(session, now, None)]
  }

  function Release(t: Table, p: int, now: int): Table {
    if Live(t, p) then t[p := t[p].(releasedAt := Some(now))] else t
  }

  /** A least eligible port is unique, so it is the one a scan from below returns. */
  lemma ChooseIsLeast(c: Config, t: Table, now: int, p: int)
    requires c.minPort <= p <= c.maxPort && Eligible(c.grace, t, p, now)
    requires forall q :: c.minPort <= q < p ==> !Eligible(c.grace, t, q, now)
    ensures Choose(c, t, now) == Some(p)
  {
  }

  // ----- The range split into four kinds of port -----

  ghost function RangePorts(lo: int, hi: int): (r: set<int>)
    ensures forall p :: p in r <==> lo <= p <= hi
    ensures |r| == if lo <= hi then hi - lo + 1 else 0
    decreases hi - lo
  {
    if lo > hi then {} else RangePorts(lo + 1, hi) + {lo}
  }

  ghost function InRange(c: Config): set<int> {
    RangePorts(c.minPort, c.maxPort)
  }

  ghost function EligiblePorts(c: Config, t: Table, now: int): set<int> {
    set p | p in InRange(c) && Eligible(c.grace, t, p, now)
  }

  lemma EligibleMembers(c: Config, t: Table, now: int)
    ensures forall p :: p in EligiblePorts(c, t, now) <==> c.minPort <= p <= c.maxPort && Eligible(c.grace, t, p, now)
  {
  }

  ghost function FreshPorts(c: Config, t: Table): set<int> {
    set p | p in InRange(c) && p !in t
  }

  ghost function LivePorts(c: Config, t: Table): set<int> {
    set p | p in InRange(c) && Live(t, p)
  }

  ghost function ReusablePorts(c: Config, t: Table, now: int): set<int> {
    set p | p in InRange(c) && p in t && Eligible(c.grace, t, p, now)
  }

  ghost function QuarantinedPorts(c: Config, t: Table, now: int): set<int> {
    set p | p in InRange(c) && p in t && !Live(t, p) && !Eligible(c.grace, t, p, now)
  }

  lemma DisjointSum<T>(a: set<T>, b: set<T>)
    requires a !! b
    ensures |a + b| == |a| + |b|
  {
  }

  /** Every port of the range is of exactly one kind, at every instant. */
  lemma PortsAreConserved(c: Config, t: Table, now: int)
    ensures |FreshPorts(c, t)| + |LivePorts(c, t)| + |QuarantinedPorts(c, t, now)| + |ReusablePorts(c, t, now)|
            == |InRange(c)|
    ensures |EligiblePorts(c, t, now)| == |FreshPorts(c, t)| + |ReusablePorts(c, t, now)|
  {
    var f, l, q, r := FreshPorts(c, t), LivePorts(c, t), QuarantinedPorts(c, t, now), ReusablePorts(c, t, now);
    DisjointSum(f, r);
    DisjointSum(l, q);
    DisjointSum(f + r, l + q);
    assert EligiblePorts(c, t, now) == f + r;
    assert InRange(c) == (f + r) + (l + q);
  }

  /** Allocate fails exactly when nothing is eligible; success moves one port from eligible to live. */
  lemma AllocateCount(c: Config, t: Table, session: string, now: int)
    ensures Choose(c, t, now).None? <==> |EligiblePorts(c, t, now)| == 0
    ensures Choose(c, t, now).None? ==> Allocate(c, t, session, now) == t
    ensures Choose(c, t, now).Some? ==>
              && |EligiblePorts(c, Allocate(c, t, session, now), now)| == |EligiblePorts(c, t, now)| - 1
              && LivePorts(c, Allocate(c, t, session, now)) == LivePorts(c, t) + {Choose(c, t, now).value}
              && Choose(c, t, now).value !in LivePorts(c, t)
  {
    var e := EligiblePorts(c, t, now);
    var r := Choose(c, t, now);
    if r.Some? {
      assert r.value in e;
      assert EligiblePorts(c, Allocate(c, t, session, now), now) == e - {r.value};
    } else {
      assert e == {};
    }
  }

  /** A release quarantines: the port becomes eligible again exactly one grace period later. */
  lemma ReleaseQuarantines(c: Config, t: Table, p: int, now: int, later: int)
    requires Live(t, p)
    ensures !Live(Release(t, p, now), p)
    ensures Eligible(c.grace, Release(t, p, now), p, later) <==> later >= now + c.grace
    ensures forall q :: q != p ==> (Eligible(c.grace, Release(t, p, now), q, later) <==> Eligible(c.grace, t, q, later))
    ensures Release(Release(t, p, now), p, later) == Release(t, p, now)
  {
  }
}
