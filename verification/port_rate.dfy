/**
 * How fast ports can be handed out, whoever calls: over any history of
 * allocate and release calls at non-decreasing times.
 */
module PortRate {
  import opened Wrappers
  import A = Arithmetic
  import L = Leases

  datatype Op = Take(session: string, at: int) | Give(port: int, at: int)

  predicate Ordered(ops: seq<Op>) {
    forall i, j :: 0 <= i < j < |ops| ==> ops[i].at <= ops[j].at
  }

  function Apply(c: L.Config, t: L.Table, op: Op): L.Table {
    match op
    case Take(s, at) => L.Allocate(c, t, s, at)
    case Give(p, at) => L.Release(t, p, at)
  }

  /** The table after a history that starts with no port ever allocated. */
  function After(c: L.Config, ops: seq<Op>): L.Table {
    if ops == [] then map[] else Apply(c, After(c, ops[..|ops| - 1]), ops[|ops| - 1])
  }

  /** The port the last call of the history hands out, if it hands one out. */
  function LastGrant(c: L.Config, ops: seq<Op>): Option<int>
    requires ops != []
  {
    match ops[|ops| - 1]
    case Take(_, at) => L.Choose(c, After(c, ops[..|ops| - 1]), at)
    case Give(_, _) => None
  }

  predicate GrantAt(c: L.Config, ops: seq<Op>, i: nat, p: int)
    requires i < |ops|
  {
    LastGrant(c, ops[..i + 1]) == Some(p)
  }

  /** How often port p was handed out at a time in first..last. */
  function Grants(c: L.Config, ops: seq<Op>, p: int, first: int, last: int): nat {
    if ops == [] then 0
    else
      var n := |ops| - 1;
      Grants(c, ops[..n], p, first, last)
      + if LastGrant(c, ops) == Some(p) && first <= ops[n].at <= last then 1 else 0
  }

  /** How many allocations succeeded at a time in first..last. */
  function TotalGrants(c: L.Config, ops: seq<Op>, first: int, last: int): nat {
    if ops == [] then 0
    else
      var n := |ops| - 1;
      TotalGrants(c, ops[..n], first, last)
      + if LastGrant(c, ops).Some? && first <= ops[n].at <= last then 1 else 0
  }

  function SumGrants(c: L.Config, ops: seq<Op>, lo: int, hi: int, first: int, last: int): nat
    decreases hi - lo
  {
    if lo > hi then 0 else Grants(c, ops, lo, first, last) + SumGrants(c, ops, lo + 1, hi, first, last)
  }

  lemma {:induction false} TableTimes(c: L.Config, ops: seq<Op>, p: int)
    requires Ordered(ops)
    ensures var t := After(c, ops);
            p in t ==>
              && ops != []
              && t[p].allocatedAt <= ops[|ops| - 1].at
              && (t[p].releasedAt.Some? ==> t[p].allocatedAt <= t[p].releasedAt.value <= ops[|ops| - 1].at)
  {
    if ops != [] {
      TableTimes(c, ops[..|ops| - 1], p);
    }
  }

  /** From a grant of p on, the record of p is at least as recent as that grant. */
  lemma {:induction false} RecordKeepsUp(c: L.Config, ops: seq<Op>, i: nat, p: int)
    requires Ordered(ops) && i < |ops| && GrantAt(c, ops, i, p)
    ensures p in After(c, ops) && After(c, ops)[p].allocatedAt >= ops[i].at
    decreases |ops|
  {
    var n := |ops| - 1;
    if i < n {
      assert ops[..n][..i + 1] == ops[..i + 1];
      RecordKeepsUp(c, ops[..n], i, p);
      TableTimes(c, ops[..n], p);
    } else {
      assert ops[..i + 1] == ops;
    }
  }

  /** Two grants of one port are at least a grace period apart. */
  lemma SuccessiveGrantsSpaced(c: L.Config, ops: seq<Op>, i: nat, j: nat, p: int)
    requires Ordered(ops) && i < j < |ops| && GrantAt(c, ops, i, p) && GrantAt(c, ops, j, p)
    ensures ops[j].at >= ops[i].at + c.grace
  {
    assert ops[..j][..i + 1] == ops[..i + 1];
    assert ops[..j + 1][..j] == ops[..j];
    RecordKeepsUp(c, ops[..j], i, p);
    TableTimes(c, ops[..j], p);
  }

  /** And no further apart than that if it is released at once and asked for as soon as it may be. */
  lemma SpacingIsTight(c: L.Config)
    requires c.minPort <= c.maxPort && c.grace >= 0
    ensures var ops := [Take("a", 0), Give(c.minPort, 0), Take("b", c.grace)];
            Ordered(ops) && GrantAt(c, ops, 0, c.minPort) && GrantAt(c, ops, 2, c.minPort)
  {
    var ops, p := [Take("a", 0), Give(c.minPort, 0), Take("b", c.grace)], c.minPort;
    assert ops[..1] == [ops[0]] && ops[..2] == [ops[0], ops[1]] && ops[..3] == ops;
    assert ops[..2][..1] == ops[..1] && ops[..1][..0] == [];
    L.ChooseIsLeast(c, map[], 0, p);
    assert After(c, ops[..1]) == map[p := L.Lease("a", 0, None)];
    assert After(c, ops[..2]) == map[p := L.Lease("a", 0, Some(0))];
    L.ChooseIsLeast(c, After(c, ops[..2]), c.grace, p);
    assert ops[..3][..2] == ops[..2];
  }

  lemma {:induction false} GrantsOfOnePort(c: L.Config, ops: seq<Op>, p: int, first: int, last: int)
    requires Ordered(ops) && c.grace > 0
    ensures var k := Grants(c, ops, p, first, last);
            k > 0 ==>
              && p in After(c, ops)
              && first + (k - 1) * c.grace <= After(c, ops)[p].allocatedAt
              && first + (k - 1) * c.grace <= last
  {
    if ops != [] {
      var n := |ops| - 1;
      var k := Grants(c, ops[..n], p, first, last);
      GrantsOfOnePort(c, ops[..n], p, first, last);
      TableTimes(c, ops[..n], p);
      assert (k - 1) * c.grace + c.grace == k * c.grace;
    }
  }

  lemma {:induction false} SumBound(c: L.Config, ops: seq<Op>, lo: int, hi: int, first: int, last: int, m: nat)
    requires forall p :: Grants(c, ops, p, first, last) <= m
    ensures SumGrants(c, ops, lo, hi, first, last) <= |L.RangePorts(lo, hi)| * m
    decreases hi - lo
  {
    if lo <= hi {
      SumBound(c, ops, lo + 1, hi, first, last, m);
      A.MulStep(|L.RangePorts(lo + 1, hi)|, m);
    }
  }

  /** One more grant of p, with p inside lo..hi, adds one to the sum over the ports. */
  lemma {:induction false} SumStep(c: L.Config, ops: seq<Op>, lo: int, hi: int, first: int, last: int)
    requires ops != []
    ensures var n := |ops| - 1;
            SumGrants(c, ops, lo, hi, first, last) == SumGrants(c, ops[..n], lo, hi, first, last)
            + if LastGrant(c, ops).Some? && lo <= LastGrant(c, ops).value <= hi && first <= ops[n].at <= last then 1 else 0
    decreases hi - lo
  {
    if lo <= hi {
      SumStep(c, ops, lo + 1, hi, first, last);
    }
  }

  lemma {:induction false} TotalIsSum(c: L.Config, ops: seq<Op>, first: int, last: int)
    ensures TotalGrants(c, ops, first, last) == SumGrants(c, ops, c.minPort, c.maxPort, first, last)
  {
    if ops == [] {
      SumOfNothing(c, c.minPort, first, last);
    } else {
      TotalIsSum(c, ops[..|ops| - 1], first, last);
      SumStep(c, ops, c.minPort, c.maxPort, first, last);
    }
  }

  lemma {:induction false} SumOfNothing(c: L.Config, lo: int, first: int, last: int)
    ensures SumGrants(c, [], lo, c.maxPort, first, last) == 0
    decreases c.maxPort - lo
  {
    if lo <= c.maxPort {
      SumOfNothing(c, lo + 1, first, last);
    }
  }

  /** A window of length w sees at most (ports in range) * (w / grace + 1) successful allocations. */
  lemma AllocationRateBound(c: L.Config, ops: seq<Op>, first: int, w: nat)
    requires Ordered(ops) && c.grace > 0
    ensures TotalGrants(c, ops, first, first + w) <= |L.InRange(c)| * (w / c.grace + 1)
  {
    TotalIsSum(c, ops, first, first + w);
    var last, m := first + w, w / c.grace + 1;
    forall p
      ensures Grants(c, ops, p, first, last) <= m
    {
      GrantsOfOnePort(c, ops, p, first, last);
      A.SpacedCount(Grants(c, ops, p, first, last), w, c.grace);
    }
    SumBound(c, ops, c.minPort, c.maxPort, first, last, m);
  }
}
