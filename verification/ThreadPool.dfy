/** Which loop the next connection goes to. */
module ThreadPoolSpec {
  datatype Pool<L> = Pool(base: L, loops: seq<L>, next: nat) {
    predicate Ok() { loops == [] || next < |loops| }

    function Pick(): L
      requires Ok()
    {
      if loops == [] then base else loops[next]
    }

    function Advance(): Pool<L>
      requires Ok()
    {
      if loops == [] then this
      else this.(next := if next + 1 >= |loops| then 0 else next + 1)
    }
  }

  // The loops that m calls of getNextLoop return, in order.
  function Picks<L>(p: Pool<L>, m: nat): seq<L>
    requires p.Ok()
    decreases m
  {
    if m == 0 then [] else [p.Pick()] + Picks(p.Advance(), m - 1)
  }

  lemma {:induction false} PickedIsModulo<L>(p: Pool<L>, m: nat, k: nat)
    requires p.Ok() && k < m
    ensures |Picks(p, m)| == m
    ensures Picks(p, m)[k] == if p.loops == [] then p.base else p.loops[(p.next + k) % |p.loops|]
    decreases m
  {
    if m > 1 {
      PickedIsModulo(p.Advance(), m - 1, if k == 0 then 0 else k - 1);
    }
    if p.loops != [] {
      WrapOnce(p.next, |p.loops|, k);
    }
  }

  lemma DivisionIsUnique(x: int, n: int, q: int, r: int)
    requires 0 <= r < n && x == n * q + r
    ensures x / n == q && x % n == r
  {
    var d := q - x / n;
    assert n * d == x % n - r;
    MultiplesAreApart(n, d);
  }

  lemma MultiplesAreApart(n: nat, d: int)
    ensures d >= 1 ==> n * d >= n
    ensures d <= -1 ==> n * d + n <= 0
  {
    assert n * d == n * (d - 1) + n;
    assert n * d == n * (d + 1) - n;
  }

  lemma DivisionShifts(x: int, n: int)
    requires n > 0
    ensures (x + n) / n == x / n + 1 && (x + n) % n == x % n
  {
    assert x == n * (x / n) + x % n;
    assert x + n == n * (x / n + 1) + x % n;
    DivisionIsUnique(x + n, n, x / n + 1, x % n);
  }

  lemma WrapOnce(next: nat, n: nat, k: nat)
    requires next < n
    ensures next % n == next
    ensures k > 0 ==> (next + k) % n == ((if next + 1 >= n then 0 else next + 1) + (k - 1)) % n
  {
    DivisionIsUnique(next, n, 0, next);
    if k > 0 && next + 1 >= n {
      DivisionShifts(k - 1, n);
      assert next + k == (k - 1) + n;
    }
  }

  /** Called k times on a fresh pool, getNextLoop has gone round the loops. */
  lemma RoundRobin<L>(base: L, loops: seq<L>, m: nat, k: nat)
    requires loops != [] && k < m
    ensures |Picks(Pool(base, loops, 0), m)| == m
    ensures Picks(Pool(base, loops, 0), m)[k] == loops[k % |loops|]
  {
    PickedIsModulo(Pool(base, loops, 0), m, k);
  }

  // The number of calls before loop number i is picked.
  function Ahead(next: nat, n: nat, i: nat): nat
    requires next < n && i < n
  {
    if next <= i then i - next else n - next + i
  }

  ghost predicate Distinct<L(!new)>(loops: seq<L>) {
    forall i, j :: 0 <= i < j < |loops| ==> loops[i] != loops[j]
  }

  // How often a loop that is d picks ahead, of n loops, is picked in m calls.
  function Share(m: nat, n: nat, d: nat): nat
    requires d < n
    decreases m
  {
    if m == 0 then 0 else if d == 0 then Share(m - 1, n, n - 1) + 1 else Share(m - 1, n, d - 1)
  }

  lemma {:induction false} ShareIsRounded(m: nat, n: nat, d: nat)
    requires d < n
    ensures Share(m, n, d) == (m + n - 1 - d) / n
    decreases m
  {
    if m == 0 {
      DivisionIsUnique(n - 1 - d, n, 0, n - 1 - d);
    } else if d == 0 {
      ShareIsRounded(m - 1, n, n - 1);
      DivisionShifts(m - 1, n);
      assert m + n - 1 - d == (m - 1) + n && (m - 1) + n - 1 - (n - 1) == m - 1;
    } else {
      ShareIsRounded(m - 1, n, d - 1);
    }
  }

  lemma AheadStep<L(!new)>(p: Pool<L>, i: nat)
    requires p.Ok() && i < |p.loops| && Distinct(p.loops)
    ensures var n, d := |p.loops|, Ahead(p.next, |p.loops|, i);
            && (p.Pick() == p.loops[i] <==> d == 0)
            && Ahead(p.Advance().next, n, i) == if d == 0 then n - 1 else d - 1
  {
    if p.next < i {
      assert p.loops[p.next] != p.loops[i];
    } else if i < p.next {
      assert p.loops[i] != p.loops[p.next];
    }
  }

  lemma PicksCount<L(!new)>(p: Pool<L>, m: nat, who: L)
    requires p.Ok() && m > 0
    ensures multiset(Picks(p, m))[who] == multiset(Picks(p.Advance(), m - 1))[who] + (if p.Pick() == who then 1 else 0)
  {
    assert multiset(Picks(p, m)) == multiset{p.Pick()} + multiset(Picks(p.Advance(), m - 1));
  }

  lemma {:induction false} TimesExactly<L(!new)>(p: Pool<L>, m: nat, i: nat)
    requires p.Ok() && i < |p.loops| && Distinct(p.loops)
    ensures multiset(Picks(p, m))[p.loops[i]] == Share(m, |p.loops|, Ahead(p.next, |p.loops|, i))
    decreases m
  {
    if m > 0 {
      AheadStep(p, i);
      TimesExactly(p.Advance(), m - 1, i);
      PicksCount(p, m, p.loops[i]);
    }
  }

  lemma DivisionIsMonotone(a: int, b: int, n: int)
    requires a <= b && n > 0
    ensures a / n <= b / n
  {
    var d := b / n - a / n;
    assert n * d == (b - b % n) - (a - a % n);
    MultiplesAreApart(n, d);
  }

  /** Over any m consecutive calls each loop is picked floor(m/n) or ceil(m/n) times. */
  lemma Fair<L(!new)>(p: Pool<L>, m: nat, i: nat)
    requires p.Ok() && i < |p.loops| && Distinct(p.loops)
    ensures m / |p.loops| <= multiset(Picks(p, m))[p.loops[i]] <= (m + |p.loops| - 1) / |p.loops|
  {
    TimesExactly(p, m, i);
    var n, d := |p.loops|, Ahead(p.next, |p.loops|, i);
    ShareIsRounded(m, n, d);
    DivisionIsMonotone(m, m + n - 1 - d, n);
    DivisionIsMonotone(m + n - 1 - d, m + n - 1, n);
  }
}

module ThreadPool {
  import opened ThreadPoolSpec

  class EventLoopThreadPool<L> {
    const baseLoop: L
    var loops: seq<L>
    var next: nat

    ghost predicate Valid()
      reads this
    {
      V().Ok() && (loops == [] ==> next == 0)
    }

    ghost function V(): Pool<L>
      reads this
    {
      Pool(baseLoop, loops, next)
    }

    constructor (base: L)
      ensures Valid() && V() == Pool(base, [], 0)
    {
      baseLoop, loops, next := base, [], 0;
    }

    method Start(started: seq<L>)
      requires Valid() && loops == []
      modifies this
      ensures Valid() && V() == Pool(baseLoop, started, 0)
    {
      loops := started;
    }

    method GetNextLoop() returns (loop: L)
      requires Valid()
      modifies this
      ensures Valid() && V() == old(V()).Advance() && loop == old(V()).Pick()
    {
      loop := baseLoop;
      if loops != [] {
        loop := loops[next];
        next := next + 1;
        if next >= |loops| {
          next := 0;
        }
      }
    }

    function GetAllLoops(): (all: seq<L>)
      reads this
      ensures all != [] && (loops != [] ==> all == loops) && (loops == [] ==> all == [baseLoop])
    {
      if loops == [] then [baseLoop] else loops
    }
  }
}
