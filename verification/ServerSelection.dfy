/** How the proxy chooses a backend server: the valid servers, weighted random choice in exact arithmetic, and
    round robin. */
module ServerSelection {

  import opened Common

  datatype Status = Normal | Abnormal | Maintenance | HighWaterMark

  datatype Server = Server(name: string, status: Status, expire: int, utime: real, handleNum: int)

  // ---------- Valid servers ----------

  predicate IsValid(s: Server, now: real) {
    (s.expire == 0 || now - s.utime < s.expire as real) && s.status == Normal
  }

  function ValidServers(servers: seq<Server>, now: real): seq<Server> {
    if servers == [] then []
    else ValidServers(servers[..|servers| - 1], now) +
         (if IsValid(servers[|servers| - 1], now) then [servers[|servers| - 1]] else [])
  }

  /** The valid servers are those that have not expired and are in normal state. */
  lemma {:induction false} ValidServersAre(servers: seq<Server>, now: real)
    ensures forall s :: s in ValidServers(servers, now) <==>
              s in servers && s.status == Normal && (s.expire == 0 || now - s.utime < s.expire as real)
  {
    if servers != [] {
      ValidServersAre(servers[..|servers| - 1], now);
      assert servers == servers[..|servers| - 1] + [servers[|servers| - 1]];
    }
  }

  /** They come in the order of the list, each as often as it is there. */
  lemma {:induction false} ValidServersInOrder(servers: seq<Server>, more: seq<Server>, now: real)
    ensures ValidServers(servers + more, now) == ValidServers(servers, now) + ValidServers(more, now)
    ensures |servers| == 1 ==> |ValidServers(servers, now)| <= 1
    decreases |more|
  {
    if more == [] {
      assert servers + more == servers;
    } else {
      var n := |more| - 1;
      assert (servers + more)[..|servers| + n] == servers + more[..n];
      ValidServersInOrder(servers, more[..n], now);
    }
  }

  // ---------- Weighted random choice ----------

  /** The weight of a server falls with its handles. */
  function Weight(s: Server): (w: real)
    ensures w > 0.0
  {
    if s.handleNum > 0 then 1.0 / s.handleNum as real else 1.0
  }

  /** A server with `k` handles weighs the `k`-th part of an idle one; fewer handles never weigh less. */
  lemma WeightFalls(s: Server, t: Server)
    ensures s.handleNum <= 0 ==> Weight(s) == 1.0
    ensures s.handleNum > 0 ==> Weight(s) * s.handleNum as real == 1.0
    ensures s.handleNum <= t.handleNum ==> Weight(s) >= Weight(t)
  {
  }

  /** The sum of the weights of the first `n` servers. */
  function Total(servers: seq<Server>, n: nat): real
    requires n <= |servers|
  {
    if n == 0 then 0.0 else Total(servers, n - 1) + Weight(servers[n - 1])
  }

  lemma {:induction false} TotalGrows(servers: seq<Server>, i: nat, j: nat)
    requires i < j <= |servers|
    ensures Total(servers, i) < Total(servers, j)
  {
    if i < j - 1 { TotalGrows(servers, i, j - 1); }
  }

  /** The draw `u`, between 0 and 1, falls into the interval of server `i`, which is as long as its weight. */
  predicate Draws(servers: seq<Server>, u: real, i: nat)
    requires i < |servers|
  {
    Total(servers, i) <= Scaled(u, Total(servers, |servers|)) < Total(servers, i + 1)
  }

  /** The draw is scaled by the total weight, and the intervals follow one another from 0 on. */
  lemma DrawsIs(servers: seq<Server>, u: real, i: nat)
    requires i < |servers|
    ensures Draws(servers, u, i) <==>
              Total(servers, i) <= u * Total(servers, |servers|)
                && u * Total(servers, |servers|) < Total(servers, i + 1)
    ensures Total(servers, 0) == 0.0 && Total(servers, i + 1) == Total(servers, i) + Weight(servers[i])
  {
    hide Weight;
  }

  /** The intervals do not overlap ... */
  lemma DrawsOne(servers: seq<Server>, u: real, i: nat, j: nat)
    requires i < |servers| && j < |servers| && Draws(servers, u, i) && Draws(servers, u, j)
    ensures i == j
  {
    if i + 1 < j { TotalGrows(servers, i + 1, j); }
    if j + 1 < i { TotalGrows(servers, j + 1, i); }
  }

  /** ... and each is as long as the weight of its server. */
  lemma IntervalIsWeight(servers: seq<Server>, i: nat)
    requires i < |servers|
    ensures Total(servers, i + 1) - Total(servers, i) == Weight(servers[i])
    ensures 0.0 <= Total(servers, i) && Total(servers, i + 1) <= Total(servers, |servers|)
  {
    if i > 0 { TotalGrows(servers, 0, i); }
    if i + 1 < |servers| { TotalGrows(servers, i + 1, |servers|); }
  }

  /** A random number below 1 scaled to the total weight. */
  function Scaled(u: real, total: real): (x: real)
    ensures 0.0 <= u < 1.0 && total > 0.0 ==> 0.0 <= x < total
  {
    u * total
  }

  /** The position that bisection finds is the server whose interval the draw falls into. */
  lemma BisectDraws(servers: seq<Server>, totals: seq<real>, x: real, k: nat)
    requires servers != [] && |totals| == |servers| && k <= |totals|
    requires forall i :: 0 <= i < |totals| ==> totals[i] == Total(servers, i + 1)
    requires 0.0 <= x < Total(servers, |servers|)
    requires forall i :: 0 <= i < k ==> totals[i] <= x
    requires forall i :: k <= i < |totals| ==> x < totals[i]
    ensures k < |servers| && Total(servers, k) <= x < Total(servers, k + 1)
  {
    hide Weight;
    assert totals[|servers| - 1] == Total(servers, |servers|);
    assert k < |servers|;
    assert x < totals[k];
    if k == 0 {
      assert Total(servers, 0) == 0.0;
    } else {
      assert totals[k - 1] <= x;
    }
  }

  /** Python's `bisect_right`: the number of elements not greater than `x`. */
  method BisectRight(a: seq<real>, x: real) returns (lo: nat)
    requires forall i, j :: 0 <= i < j < |a| ==> a[i] <= a[j]
    ensures lo <= |a| && (forall i :: 0 <= i < lo ==> a[i] <= x) && (forall i :: lo <= i < |a| ==> x < a[i])
  {
    lo := 0;
    var hi := |a|;
    while lo < hi
      invariant lo <= hi <= |a| && (forall i :: 0 <= i < lo ==> a[i] <= x) && (forall i :: hi <= i < |a| ==> x < a[i])
    {
      var mid := (lo + hi) / 2;
      if x < a[mid] {
        hi := mid;
      } else {
        lo := mid + 1;
      }
    }
  }

  // ---------- Round robin ----------

  /** How many of the `k` picks from counter value `start` on give index `i` of `n`. */
  function Picks(start: nat, k: nat, n: nat, i: nat): nat
    requires n > 0
  {
    if k == 0 then 0 else Picks(start, k - 1, n, i) + (if (start + k - 1) % n == i then 1 else 0)
  }

  lemma DivStep(a: nat, n: nat)
    requires n > 0
    ensures (a + 1) / n == a / n + (if (a + 1) % n == 0 then 1 else 0)
  {
    var q, r := a / n, a % n;
    assert a == q * n + r;
    if r + 1 == n {
      assert a + 1 == (q + 1) * n;
      DivUnique(a + 1, n, q + 1, 0);
    } else {
      DivUnique(a + 1, n, q, r + 1);
    }
  }

  lemma DivUnique(a: nat, n: nat, q: nat, r: nat)
    requires n > 0 && a == q * n + r && r < n
    ensures a / n == q && a % n == r
  {
    var d := a / n - q;
    Multiple(a / n, q, n);
    Multiple(0, d, n);
    assert d * n == r - a % n;
    if d >= 1 {
      AtLeastOnce(d, n);
    } else if d <= -1 {
      AtLeastOnce(-d, n);
    }
  }

  lemma Multiple(a: int, b: int, n: int)
    ensures (a - b) * n == a * n - b * n
  {
  }

  lemma AtLeastOnce(d: int, n: int)
    requires d >= 1 && n > 0
    ensures d * n >= n
  {
    Multiple(d, 1, n);
    assert (d - 1) * n >= 0;
  }

  lemma ModShift(m: nat, n: nat, i: nat)
    requires n > 0 && i < n
    ensures (m + n - i) % n == 0 <==> m % n == i
  {
    var q, r := m / n, m % n;
    assert m == q * n + r;
    if r >= i {
      assert m + n - i == (q + 1) * n + (r - i);
      DivUnique(m + n - i, n, q + 1, r - i);
    } else {
      assert m + n - i == q * n + (r + n - i);
      DivUnique(m + n - i, n, q, r + n - i);
    }
  }

  lemma {:induction false} PicksClosed(start: nat, k: nat, n: nat, i: nat)
    requires n > 0 && i < n
    ensures Picks(start, k, n, i) == (start + k + n - 1 - i) / n - (start + n - 1 - i) / n
  {
    if k > 0 {
      PicksClosed(start, k - 1, n, i);
      DivStep(start + k - 1 + n - 1 - i, n);
      ModShift(start + k - 1, n, i);
      assert start + k - 1 + n - 1 - i + 1 == start + k - 1 + n - i;
    }
  }

  lemma SumQuotients(q: nat, p: nat, n: nat)
    ensures (q + p) * n == q * n + p * n && (q + p + 1) * n == q * n + p * n + n
  {
  }

  lemma DivSum(x: nat, k: nat, n: nat)
    requires n > 0
    ensures (x + k) / n == x / n + k / n + (if x % n + k % n < n then 0 else 1)
  {
    var q, r, p, t := x / n, x % n, k / n, k % n;
    SumQuotients(q, p, n);
    if r + t < n {
      DivUnique(x + k, n, q + p, r + t);
    } else {
      DivUnique(x + k, n, q + p + 1, r + t - n);
    }
  }

  lemma DivCeil(k: nat, n: nat)
    requires n > 0
    ensures (k + n - 1) / n == k / n + (if k % n == 0 then 0 else 1)
  {
    var p, t := k / n, k % n;
    assert k == p * n + t;
    if t == 0 {
      DivUnique(k + n - 1, n, p, n - 1);
    } else {
      assert k + n - 1 == (p + 1) * n + (t - 1);
      DivUnique(k + n - 1, n, p + 1, t - 1);
    }
  }

  /** Of any `k` consecutive picks each of `n` servers gets the fair share, rounded down or up. */
  lemma RoundRobinIsFair(start: nat, k: nat, n: nat, i: nat)
    requires n > 0 && i < n
    ensures k / n <= Picks(start, k, n, i) <= (k + n - 1) / n
  {
    PicksClosed(start, k, n, i);
    DivSum(start + n - 1 - i, k, n);
    DivCeil(k, n);
    assert start + n - 1 - i + k == start + k + n - 1 - i;
  }

  class BackendServerManager {
    var servers: seq<Server>
    var rrIndex: nat

    constructor (list: seq<Server>)
      ensures servers == list && rrIndex == 0
    {
      servers, rrIndex := list, 0;
    }

    method GetValidServers(now: real) returns (valid: seq<Server>)
      ensures valid == ValidServers(servers, now)
    {
      valid := [];
      var i := 0;
      while i < |servers|
        invariant i <= |servers| && valid == ValidServers(servers[..i], now)
      {
        var s := servers[i];
        assert servers[..i + 1][..i] == servers[..i];
        if s.expire == 0 || now - s.utime < s.expire as real {
          if s.status == Normal {
            valid := valid + [s];
          }
        }
        i := i + 1;
      }
      assert servers[..i] == servers;
    }

    /** The running totals of the weights. */
    static method RunningTotals(list: seq<Server>) returns (totals: seq<real>, runningTotal: real)
      ensures |totals| == |list| && runningTotal == Total(list, |list|)
      ensures forall i :: 0 <= i < |list| ==> totals[i] == Total(list, i + 1)
    {
      runningTotal, totals := 0.0, [];
      var i := 0;
      while i < |list|
        invariant i <= |list| && runningTotal == Total(list, i)
        invariant |totals| == i && forall j :: 0 <= j < i ==> totals[j] == Total(list, j + 1)
      {
        runningTotal := runningTotal + Weight(list[i]);
        totals := totals + [runningTotal];
        i := i + 1;
      }
    }

    /** Weighted random choice for the draw `u`: the server whose interval the draw falls into, if any is valid. */
    method WrAlgo(now: real, u: real) returns (r: Option<Server>)
      requires 0.0 <= u < 1.0
      ensures var valid := ValidServers(servers, now);
        && (r.None? <==> valid == [])
        && (r.Some? ==> exists i :: 0 <= i < |valid| && r.value == valid[i] && Draws(valid, u, i))
    {
      hide Weight, Scaled;
      var list := GetValidServers(now);
      if list == [] {
        return None;
      }
      var totals, runningTotal := RunningTotals(list);
      forall i, j | 0 <= i < j < |totals| ensures totals[i] <= totals[j] { TotalGrows(list, i + 1, j + 1); }
      TotalGrows(list, 0, |list|);
      var x := Scaled(u, runningTotal);
      var k := BisectRight(totals, x);
      BisectDraws(list, totals, x, k);
      assert Draws(list, u, k);
      return Some(list[k]);
    }

    /** Round robin over the valid servers. */
    method RrAlgo(now: real) returns (r: Option<Server>)
      modifies this`rrIndex
      ensures var valid := ValidServers(servers, now);
        if valid == [] then r.None? && rrIndex == old(rrIndex)
        else r == Some(valid[old(rrIndex) % |valid|]) && rrIndex == old(rrIndex) + 1
    {
      var list := GetValidServers(now);
      if list == [] {
        return None;
      }
      var index := rrIndex % |list|;
      rrIndex := rrIndex + 1;
      return Some(list[index]);
    }

    /** `k` picks in a row while the valid servers stay the same: each of them is picked its fair share of times. */
    method RrPicks(now: real, k: nat, ghost i: nat) returns (picked: seq<Option<Server>>, ghost hits: nat)
      requires i < |ValidServers(servers, now)|
      modifies this`rrIndex
      ensures |picked| == k && rrIndex == old(rrIndex) + k
      ensures forall j :: 0 <= j < k ==>
                picked[j] == Some(ValidServers(servers, now)[(old(rrIndex) + j) % |ValidServers(servers, now)|])
      ensures hits == Picks(old(rrIndex), k, |ValidServers(servers, now)|, i)
      ensures k / |ValidServers(servers,
                now)| <= hits <= (k + |ValidServers(servers, now)| - 1) / |ValidServers(servers, now)|
    {
      ghost var valid := ValidServers(servers, now);
      picked := [];
      hits := Picks(rrIndex, k, |valid|, i);
      RoundRobinIsFair(rrIndex, k, |valid|, i);
      while |picked| < k
        invariant |picked| <= k && rrIndex == old(rrIndex) + |picked|
        invariant forall j :: 0 <= j < |picked| ==> picked[j] == Some(valid[(old(rrIndex) + j) % |valid|])
      {
        var r := RrAlgo(now);
        picked := picked + [r];
      }
    }
  }
}
