/** Smooth weighted round robin (internal/scheduler/select.go): every pick adds each account's weight to its
    current value, takes the account with the largest one and subtracts the total weight from it. */
module WeightedRoundRobin {
  import opened Options

  datatype Account = Account(id: string, weight: int)

  const MAX_INT64 := 0x7fff_ffff_ffff_ffff
  const MIN_INT64 := -0x8000_0000_0000_0000

  function SaturatingAdd(value: int, delta: int): (r: int)
    ensures MIN_INT64 <= value + delta <= MAX_INT64 && MIN_INT64 <= value <= MAX_INT64 ==> r == value + delta
    ensures delta > 0 && value + delta > MAX_INT64 ==> r == MAX_INT64
    ensures delta < 0 && value + delta < MIN_INT64 ==> r == MIN_INT64
  {
    if delta > 0 && value > MAX_INT64 - delta then MAX_INT64
    else if delta < 0 && value < MIN_INT64 - delta then MIN_INT64
    else value + delta
  }

  predicate DistinctIds(accounts: seq<Account>) {
    forall i, j :: 0 <= i < j < |accounts| ==> accounts[i].id != accounts[j].id
  }

  predicate Positive(accounts: seq<Account>) {
    forall i :: 0 <= i < |accounts| ==> accounts[i].weight > 0
  }

  function Cur(c: map<string, int>, id: string): int {
    if id in c then c[id] else 0
  }

  /** The weights of the first n accounts. */
  function TotalWeight(accounts: seq<Account>, n: nat): int
    requires n <= |accounts|
  {
    if n == 0 then 0 else TotalWeight(accounts, n - 1) + accounts[n - 1].weight
  }

  // The current values of the first n accounts.
  function TotalCurrent(accounts: seq<Account>, c: map<string, int>, n: nat): int
    requires n <= |accounts|
  {
    if n == 0 then 0 else TotalCurrent(accounts, c, n - 1) + Cur(c, accounts[n - 1].id)
  }

  // How often the first n accounts were picked.
  function TotalPicks(accounts: seq<Account>, picks: multiset<string>, n: nat): nat
    requires n <= |accounts|
  {
    if n == 0 then 0 else TotalPicks(accounts, picks, n - 1) + picks[accounts[n - 1].id]
  }

  // Nothing comes near the range of an int64.
  predicate InRange(accounts: seq<Account>, c: map<string, int>) {
    && TotalWeight(accounts, |accounts|) <= MAX_INT64
    && forall i :: 0 <= i < |accounts| ==>
         MIN_INT64 <= Cur(c, accounts[i].id) - TotalWeight(accounts, |accounts|)
         && Cur(c, accounts[i].id) + accounts[i].weight <= MAX_INT64
  }

  lemma {:induction false} TotalWeightMonotone(accounts: seq<Account>, i: nat, n: nat)
    requires i <= n <= |accounts| && Positive(accounts)
    ensures 0 <= TotalWeight(accounts, i) <= TotalWeight(accounts, n)
    ensures i < n ==> accounts[i].weight <= TotalWeight(accounts, n)
    decreases n
  {
    if i < n {
      TotalWeightMonotone(accounts, i, n - 1);
    } else if n > 0 {
      TotalWeightMonotone(accounts, n - 1, n - 1);
    }
  }

  /** The accounts of positive weight among the first n; the others take no part. */
  function Weighted(accounts: seq<Account>, n: nat): (r: seq<Account>)
    requires n <= |accounts|
    ensures |r| <= n
  {
    if n == 0 then []
    else
      var before := Weighted(accounts, n - 1);
      if accounts[n - 1].weight > 0 then before + [accounts[n - 1]] else before
  }

  // The n-th account has its place in the list of all that take part.
  lemma {:induction false} WeightedAt(accounts: seq<Account>, n: nat, m: nat)
    requires n < m <= |accounts|
    ensures var k := |Weighted(accounts, n)|;
            && Weighted(accounts, n) <= Weighted(accounts, m)
            && (accounts[n].weight > 0 ==> k < |Weighted(accounts, m)| && Weighted(accounts, m)[k] == accounts[n])
  {
    if n < m - 1 {
      WeightedAt(accounts, n, m - 1);
    }
  }

  lemma {:induction false} WeightedFrom(accounts: seq<Account>, n: nat, k: nat) returns (i: nat)
    requires n <= |accounts| && k < |Weighted(accounts, n)|
    ensures i < n && accounts[i] == Weighted(accounts, n)[k] && accounts[i].weight > 0
  {
    if k < |Weighted(accounts, n - 1)| {
      i := WeightedFrom(accounts, n - 1, k);
    } else {
      i := n - 1;
    }
  }

  lemma {:induction false} WeightedDistinct(accounts: seq<Account>, n: nat)
    requires n <= |accounts| && DistinctIds(accounts)
    ensures DistinctIds(Weighted(accounts, n)) && Positive(Weighted(accounts, n))
  {
    if n > 0 {
      WeightedDistinct(accounts, n - 1);
      var before := Weighted(accounts, n - 1);
      forall k | 0 <= k < |before|
        ensures before[k].id != accounts[n - 1].id
      {
        var i := WeightedFrom(accounts, n - 1, k);
      }
    }
  }

  lemma {:induction false} AllWeighted(accounts: seq<Account>, n: nat)
    requires n <= |accounts| && Positive(accounts)
    ensures Weighted(accounts, n) == accounts[..n]
  {
    if n > 0 {
      AllWeighted(accounts, n - 1);
    }
  }

  function Raised(accounts: seq<Account>, c: map<string, int>, j: nat): int
    requires j < |accounts|
  {
    SaturatingAdd(Cur(c, accounts[j].id), accounts[j].weight)
  }

  // The weights of the first n accounts, as an int64 adds them up.
  function Sum(accounts: seq<Account>, n: nat): int
    requires n <= |accounts|
  {
    if n == 0 then 0 else SaturatingAdd(Sum(accounts, n - 1), accounts[n - 1].weight)
  }

  // The account taken: the first one with the largest increased value.
  predicate IsLargest(accounts: seq<Account>, c: map<string, int>, n: nat, i: nat)
    requires i < n <= |accounts|
  {
    && (forall j :: 0 <= j < i ==> Raised(accounts, c, j) < Raised(accounts, c, i))
    && (forall j :: i <= j < n ==> Raised(accounts, c, j) <= Raised(accounts, c, i))
  }

  // The first n accounts have been raised, the others not yet.
  predicate PartlyRaised(accounts: seq<Account>, before: map<string, int>, c: map<string, int>, n: nat)
    requires n <= |accounts|
  {
    && (forall j :: 0 <= j < n ==> accounts[j].id in c && c[accounts[j].id] == Raised(accounts, before, j))
    && (forall j :: n <= j < |accounts| ==> Cur(c, accounts[j].id) == Cur(before, accounts[j].id))
  }

  lemma RaisedOne(accounts: seq<Account>, before: map<string, int>, c: map<string, int>, n: nat)
    requires DistinctIds(accounts) && n < |accounts| && PartlyRaised(accounts, before, c, n)
    ensures PartlyRaised(accounts, before, c[accounts[n].id := Raised(accounts, before, n)], n + 1)
  {
  }

  lemma LargestOfMore(accounts: seq<Account>, before: map<string, int>, n: nat, i: nat)
    requires i < n < |accounts| && IsLargest(accounts, before, n, i)
    ensures IsLargest(accounts, before, n + 1, if Raised(accounts, before, n) > Raised(accounts, before, i) then n else i)
  {
  }

  // What an account's value becomes when the i-th is taken.
  function Taken(accounts: seq<Account>, c: map<string, int>, i: nat, j: nat): int
    requires j < |accounts|
  {
    if j == i then SaturatingAdd(Raised(accounts, c, j), -Sum(accounts, |accounts|)) else Raised(accounts, c, j)
  }

  /** One pick among accounts of positive weight, on the values before it, in int64 arithmetic. */
  predicate Picked(accounts: seq<Account>, c: map<string, int>, i: nat, d: map<string, int>)
    requires i < |accounts|
  {
    && IsLargest(accounts, c, |accounts|, i)
    && forall j :: 0 <= j < |accounts| ==> Cur(d, accounts[j].id) == Taken(accounts, c, i, j)
  }

  function Up(accounts: seq<Account>, c: map<string, int>, j: nat): int
    requires j < |accounts|
  {
    Cur(c, accounts[j].id) + accounts[j].weight
  }

  /** The same in exact arithmetic. */
  predicate Step(accounts: seq<Account>, c: map<string, int>, i: nat, d: map<string, int>)
    requires i < |accounts|
  {
    && (forall j :: 0 <= j < |accounts| ==> Up(accounts, c, j) <= Up(accounts, c, i))
    && (forall j :: 0 <= j < i ==> Up(accounts, c, j) < Up(accounts, c, i))
    && forall j :: 0 <= j < |accounts| ==>
         Cur(d, accounts[j].id) == Up(accounts, c, j) - (if j == i then TotalWeight(accounts, |accounts|) else 0)
  }

  lemma {:induction false} SumExact(accounts: seq<Account>, n: nat)
    requires n <= |accounts| && Positive(accounts) && TotalWeight(accounts, |accounts|) <= MAX_INT64
    ensures Sum(accounts, n) == TotalWeight(accounts, n)
  {
    TotalWeightMonotone(accounts, n, |accounts|);
    if n > 0 {
      SumExact(accounts, n - 1);
      TotalWeightMonotone(accounts, n - 1, |accounts|);
    }
  }

  lemma RaisedExact(accounts: seq<Account>, c: map<string, int>, j: nat)
    requires j < |accounts| && Positive(accounts) && InRange(accounts, c)
    ensures Raised(accounts, c, j) == Up(accounts, c, j)
  {
    TotalWeightMonotone(accounts, j, |accounts|);
  }

  /** While nothing comes near the range of an int64, saturation plays no part. */
  lemma NoSaturation(accounts: seq<Account>, c: map<string, int>, i: nat, d: map<string, int>)
    requires i < |accounts| && Positive(accounts) && InRange(accounts, c) && Picked(accounts, c, i, d)
    ensures Step(accounts, c, i, d)
  {
    SumExact(accounts, |accounts|);
    TotalWeightMonotone(accounts, i, |accounts|);
    forall j | 0 <= j < |accounts|
      ensures Up(accounts, c, j) <= Up(accounts, c, i) && (j < i ==> Up(accounts, c, j) < Up(accounts, c, i))
      ensures Cur(d, accounts[j].id) == Up(accounts, c, j) - (if j == i then TotalWeight(accounts, |accounts|) else 0)
    {
      RaisedExact(accounts, c, j);
      RaisedExact(accounts, c, i);
    }
  }

  function Ids(accounts: seq<Account>): set<string> {
    set a | a in accounts :: a.id
  }

  // The total and the ids after the first m accounts.
  ghost predicate Summed(ps: seq<Account>, m: nat, total: int, active: set<string>)
    requires m <= |ps|
  {
    total == Sum(ps, m) && active == Ids(ps[..m])
  }

  lemma OneMoreSummed(ps: seq<Account>, m: nat, total: int, active: set<string>)
    requires m < |ps| && Summed(ps, m, total, active)
    ensures Summed(ps, m + 1, SaturatingAdd(total, ps[m].weight), active + {ps[m].id})
  {
    assert ps[..m + 1] == ps[..m] + [ps[m]];
    assert ps[m] in ps[..m + 1];
    forall a | a in ps[..m]
      ensures a in ps[..m + 1]
    {
    }
  }

  // The largest value among the first m accounts, and whose it is.
  ghost predicate Leads(ps: seq<Account>, before: map<string, int>, m: nat, picked: Option<Account>, best: int, i: nat)
    requires m <= |ps|
  {
    if m == 0 then picked.None?
    else picked.Some? && i < m && picked.value == ps[i] && best == Raised(ps, before, i) && IsLargest(ps, before, m, i)
  }

  lemma OneMoreLeads(ps: seq<Account>, before: map<string, int>, m: nat, picked: Option<Account>, best: int, i: nat)
    requires m < |ps| && Leads(ps, before, m, picked, best, i)
    ensures var now := Raised(ps, before, m);
            if picked.None? || now > best then Leads(ps, before, m + 1, Some(ps[m]), now, m)
            else Leads(ps, before, m + 1, picked, best, i)
  {
    if m > 0 {
      LargestOfMore(ps, before, m, i);
    }
  }

  // Forgetting the values of all others.
  lemma {:induction false} Filtered(ps: seq<Account>, before: map<string, int>, c: map<string, int>, active: set<string>, total: int)
    requires PartlyRaised(ps, before, c, |ps|) && Summed(ps, |ps|, total, active)
    ensures var d := map id | id in c && id in active :: c[id];
            && d.Keys == Ids(ps) && total == Sum(ps, |ps|)
            && forall j :: 0 <= j < |ps| ==> ps[j].id in d && d[ps[j].id] == Raised(ps, before, j)
  {
    assert ps[..|ps|] == ps;
    forall id | id in active
      ensures id in c
    {
      var a :| a in ps && a.id == id;
    }
  }

  // Taking the total off the largest value.
  lemma {:induction false} Settled(ps: seq<Account>, before: map<string, int>, d: map<string, int>, i: nat, total: int)
    requires DistinctIds(ps) && i < |ps| && IsLargest(ps, before, |ps|, i) && total == Sum(ps, |ps|)
    requires forall j :: 0 <= j < |ps| ==> ps[j].id in d && d[ps[j].id] == Raised(ps, before, j)
    ensures Picked(ps, before, i, d[ps[i].id := SaturatingAdd(d[ps[i].id], -total)])
  {
  }

  class SmoothState {
    var current: map<string, int>

    constructor ()
      ensures current == map[]
    {
      current := map[];
    }

    // Adds one weight; keeps the largest value, and whose it is.
    method RaiseOne(a: Account, picked: Option<Account>, best: int, ghost ps: seq<Account>, ghost before: map<string, int>,
                    ghost m: nat, ghost i: nat)
      returns (newPicked: Option<Account>, newBest: int, ghost newI: nat)
      requires DistinctIds(ps) && m < |ps| && ps[m] == a
      requires PartlyRaised(ps, before, current, m) && Leads(ps, before, m, picked, best, i)
      modifies this
      ensures PartlyRaised(ps, before, current, m + 1) && Leads(ps, before, m + 1, newPicked, newBest, newI)
    {
      RaisedOne(ps, before, current, m);
      OneMoreLeads(ps, before, m, picked, best, i);
      current := current[a.id := SaturatingAdd(Cur(current, a.id), a.weight)];
      if picked.None? || current[a.id] > best {
        return Some(a), current[a.id], m;
      }
      return picked, best, i;
    }

    // What the loop below has done after m accounts of positive weight.
    ghost predicate Reached(ps: seq<Account>, before: map<string, int>, m: nat, picked: Option<Account>, best: int,
                            active: set<string>, total: int, i: nat)
      reads this
    {
      && m <= |ps| && PartlyRaised(ps, before, current, m) && Summed(ps, m, total, active)
      && Leads(ps, before, m, picked, best, i)
    }

    // One turn of the loop.
    method Take(a: Account, picked: Option<Account>, best: int, active: set<string>, total: int,
                ghost ps: seq<Account>, ghost before: map<string, int>, ghost m: nat, ghost i: nat)
      returns (newPicked: Option<Account>, newBest: int, newActive: set<string>, newTotal: int, ghost newI: nat)
      requires DistinctIds(ps) && m < |ps| && ps[m] == a && Reached(ps, before, m, picked, best, active, total, i)
      modifies this
      ensures Reached(ps, before, m + 1, newPicked, newBest, newActive, newTotal, newI)
    {
      OneMoreSummed(ps, m, total, active);
      newTotal, newActive := SaturatingAdd(total, a.weight), active + {a.id};
      newPicked, newBest, newI := RaiseOne(a, picked, best, ps, before, m, i);
    }

    // One turn of the loop for any account: without a positive weight it is skipped.
    method Visit(accounts: seq<Account>, n: nat, picked: Option<Account>, best: int, active: set<string>, total: int,
                 ghost before: map<string, int>, ghost i: nat)
      returns (newPicked: Option<Account>, newBest: int, newActive: set<string>, newTotal: int, ghost newI: nat)
      requires DistinctIds(accounts) && n < |accounts|
      requires Reached(Weighted(accounts, |accounts|), before, |Weighted(accounts, n)|, picked, best, active, total, i)
      modifies this
      ensures Reached(Weighted(accounts, |accounts|), before, |Weighted(accounts, n + 1)|, newPicked, newBest, newActive, newTotal, newI)
    {
      ghost var m := |Weighted(accounts, n)|;
      WeightedAt(accounts, n, |accounts|);
      WeightedDistinct(accounts, |accounts|);
      if accounts[n].weight <= 0 {
        return picked, best, active, total, i;
      }
      newPicked, newBest, newActive, newTotal, newI :=
        Take(accounts[n], picked, best, active, total, Weighted(accounts, |accounts|), before, m, i);
    }

    // Adds the weights and finds the largest value.
    method Raise(accounts: seq<Account>) returns (picked: Option<Account>, best: int, active: set<string>, total: int, ghost i: nat)
      requires DistinctIds(accounts)
      modifies this
      ensures var ps := Weighted(accounts, |accounts|); Reached(ps, old(current), |ps|, picked, best, active, total, i)
    {
      ghost var before := current;
      picked, best, active, total, i := None, 0, {}, 0, 0;
      for n := 0 to |accounts|
        invariant Reached(Weighted(accounts, |accounts|), before, |Weighted(accounts, n)|, picked, best, active, total, i)
      {
        picked, best, active, total, i := Visit(accounts, n, picked, best, active, total, before, i);
      }
    }

    /** Picks among the accounts of positive weight, none without any, and updates the current values; values
        of accounts that take no part are forgotten. `i` is the place among those that do. */
    method PickSmoothWeighted(accounts: seq<Account>) returns (r: Option<Account>, ghost i: nat)
      requires DistinctIds(accounts)
      modifies this
      ensures var ps := Weighted(accounts, |accounts|);
              && (r.None? <==> ps == [])
              && (r.Some? ==> i < |ps| && r.value == ps[i] && Picked(ps, old(current), i, current))
              && current.Keys == Ids(ps)
    {
      var best, active, total;
      r, best, active, total, i := Raise(accounts);
      ghost var ps := Weighted(accounts, |accounts|);
      WeightedDistinct(accounts, |accounts|);
      Filtered(ps, old(current), current, active, total);
      current := map id | id in current && id in active :: current[id];
      if r.None? {
        return;
      }
      Settled(ps, old(current), current, i, total);
      current := current[r.value.id := SaturatingAdd(current[r.value.id], -total)];
    }
  }

  // ---------------------------------------------------------------- fairness

  // After n picks from a fresh state: values account for all weights added and all totals taken off.
  ghost predicate Balanced(accounts: seq<Account>, c: map<string, int>, n: nat, picks: multiset<string>) {
    var w := TotalWeight(accounts, |accounts|);
    && TotalCurrent(accounts, c, |accounts|) == 0
    && TotalPicks(accounts, picks, |accounts|) == n
    && forall i :: 0 <= i < |accounts| ==>
         Cur(c, accounts[i].id) == n * accounts[i].weight - w * picks[accounts[i].id]
         && Cur(c, accounts[i].id) > -w
  }

  lemma {:induction false} StepTotal(accounts: seq<Account>, c: map<string, int>, i: nat, d: map<string, int>, n: nat)
    requires i < |accounts| && n <= |accounts| && Step(accounts, c, i, d)
    ensures TotalCurrent(accounts, d, n)
            == TotalCurrent(accounts, c, n) + TotalWeight(accounts, n) - (if i < n then TotalWeight(accounts, |accounts|) else 0)
  {
    if n > 0 {
      StepTotal(accounts, c, i, d, n - 1);
    }
  }

  // If no increased value is positive, their sum is not.
  lemma {:induction false} AllSmall(accounts: seq<Account>, c: map<string, int>, n: nat, top: int)
    requires n <= |accounts| && top <= 0
    requires forall j :: 0 <= j < n ==> Up(accounts, c, j) <= top
    ensures TotalCurrent(accounts, c, n) + TotalWeight(accounts, n) <= 0
  {
    if n > 0 {
      assert Up(accounts, c, n - 1) <= top;
      AllSmall(accounts, c, n - 1, top);
    }
  }

  lemma {:induction false} OnePickMore(accounts: seq<Account>, picks: multiset<string>, i: nat, n: nat)
    requires DistinctIds(accounts) && i < |accounts| && n <= |accounts|
    ensures TotalPicks(accounts, picks + multiset{accounts[i].id}, n)
            == TotalPicks(accounts, picks, n) + (if i < n then 1 else 0)
  {
    if n > 0 {
      OnePickMore(accounts, picks, i, n - 1);
    }
  }

  lemma StepBalanced(accounts: seq<Account>, c: map<string, int>, n: nat, picks: multiset<string>, i: nat, d: map<string, int>)
    requires accounts != [] && DistinctIds(accounts) && Positive(accounts)
    requires Balanced(accounts, c, n, picks) && i < |accounts| && Step(accounts, c, i, d)
    ensures Balanced(accounts, d, n + 1, picks + multiset{accounts[i].id})
  {
    var k := |accounts|;
    StepTotal(accounts, c, i, d, k);
    OnePickMore(accounts, picks, i, k);
    var w := TotalWeight(accounts, k);
    TopPositive(accounts, c, i);
    forall j | 0 <= j < k
      ensures Cur(d, accounts[j].id)
              == (n + 1) * accounts[j].weight - w * (picks + multiset{accounts[i].id})[accounts[j].id]
      ensures Cur(d, accounts[j].id) > -w
    {
      ShareStep(n, accounts[j].weight, w, picks[accounts[j].id]);
    }
  }

  lemma ShareStep(n: int, x: int, w: int, p: int)
    ensures (n + 1) * x == n * x + x && w * (p + 1) == w * p + w
  {
  }

  // The value taken was positive, so what is left of it is above -total.
  lemma {:induction false} TopPositive(accounts: seq<Account>, c: map<string, int>, i: nat)
    requires i < |accounts| && Positive(accounts) && TotalCurrent(accounts, c, |accounts|) == 0
    requires forall j :: 0 <= j < |accounts| ==> Up(accounts, c, j) <= Up(accounts, c, i)
    ensures Up(accounts, c, i) > 0 && TotalWeight(accounts, |accounts|) > 0
  {
    TotalWeightMonotone(accounts, i, |accounts|);
    TotalWeightMonotone(accounts, 0, |accounts|);
    var top := Up(accounts, c, i);
    if top <= 0 {
      AllSmall(accounts, c, |accounts|, top);
    }
  }

  // Values stay small enough for an int64: each is above -total, and together they are zero.
  lemma {:induction false} BalancedUpper(accounts: seq<Account>, c: map<string, int>, n: nat, w: int)
    requires n <= |accounts| && w >= 0
    requires forall j :: 0 <= j < |accounts| ==> Cur(c, accounts[j].id) > -w
    ensures TotalCurrent(accounts, c, n) >= -(n * w)
    ensures forall i :: 0 <= i < n ==> TotalCurrent(accounts, c, n) >= Cur(c, accounts[i].id) - (n - 1) * w
  {
    if n > 0 {
      BalancedUpper(accounts, c, n - 1, w);
      assert n * w == (n - 1) * w + w;
    }
  }

  lemma {:induction false} BalancedInRange(accounts: seq<Account>, c: map<string, int>, n: nat, picks: multiset<string>)
    requires Balanced(accounts, c, n, picks) && Positive(accounts) && accounts != []
    requires |accounts| * TotalWeight(accounts, |accounts|) <= MAX_INT64
    ensures InRange(accounts, c)
  {
    var k, w := |accounts|, TotalWeight(accounts, |accounts|);
    TotalWeightMonotone(accounts, 0, k);
    BalancedUpper(accounts, c, k, w);
    Peel(k, w);
    forall i | 0 <= i < k
      ensures MIN_INT64 <= Cur(c, accounts[i].id) - w && Cur(c, accounts[i].id) + accounts[i].weight <= MAX_INT64
    {
      TotalWeightMonotone(accounts, i, k);
    }
  }

  /** No account falls behind its share by as many picks as there are accounts. */
  lemma {:induction false} BalancedBehind(accounts: seq<Account>, c: map<string, int>, n: nat, picks: multiset<string>, i: nat)
    requires Balanced(accounts, c, n, picks) && Positive(accounts) && i < |accounts|
    ensures var w := TotalWeight(accounts, |accounts|);
            n * accounts[i].weight <= w * picks[accounts[i].id] + (|accounts| - 1) * w
  {
    TotalWeightMonotone(accounts, 0, |accounts|);
    BalancedUpper(accounts, c, |accounts|, TotalWeight(accounts, |accounts|));
  }

  lemma Peel(k: nat, w: nat)
    requires k > 0
    ensures k * w == (k - 1) * w + w && (k - 1) * w >= 0
  {
  }

  // If no account is picked more than m times its weight and all together are, then each exactly.
  lemma {:induction false} ExactShares(accounts: seq<Account>, picks: multiset<string>, m: nat, n: nat)
    requires n <= |accounts|
    requires forall i :: 0 <= i < n ==> picks[accounts[i].id] <= m * accounts[i].weight
    ensures TotalPicks(accounts, picks, n) <= m * TotalWeight(accounts, n)
    ensures TotalPicks(accounts, picks, n) == m * TotalWeight(accounts, n) ==>
              forall i :: 0 <= i < n ==> picks[accounts[i].id] == m * accounts[i].weight
  {
    if n > 0 {
      ExactShares(accounts, picks, m, n - 1);
      assert m * TotalWeight(accounts, n) == m * TotalWeight(accounts, n - 1) + m * accounts[n - 1].weight;
    }
  }

  lemma AboveShare(w: int, p: int, x: int, m: int)
    requires w > 0 && p > m * x
    ensures w * p >= m * w * x + w
  {
    var share := m * x;
    var over := p - share - 1;
    assert w * over >= 0;
    assert w * p == w * share + w * over + w;
    assert w * share == m * w * x;
  }

  /** After m full cycles (m times the total weight) every account was picked exactly m times its weight. */
  lemma {:induction false} FullCycles(accounts: seq<Account>, c: map<string, int>, n: nat, picks: multiset<string>, m: nat)
    requires Balanced(accounts, c, n, picks) && Positive(accounts) && accounts != []
    requires n == m * TotalWeight(accounts, |accounts|)
    ensures forall i :: 0 <= i < |accounts| ==> picks[accounts[i].id] == m * accounts[i].weight
  {
    var w := TotalWeight(accounts, |accounts|);
    TotalWeightMonotone(accounts, 0, |accounts|);
    assert w > 0;
    forall i | 0 <= i < |accounts|
      ensures picks[accounts[i].id] <= m * accounts[i].weight
    {
      if picks[accounts[i].id] > m * accounts[i].weight {
        AboveShare(w, picks[accounts[i].id], accounts[i].weight, m);
      }
    }
    ExactShares(accounts, picks, m, |accounts|);
  }

  /** After n picks an account is ahead of its share by less than one pick and behind by fewer picks than there
      are accounts; after every full cycle all shares are exact. */
  ghost predicate Fair(accounts: seq<Account>, n: nat, picks: multiset<string>) {
    var w := TotalWeight(accounts, |accounts|);
    forall i :: 0 <= i < |accounts| ==>
      && w * picks[accounts[i].id] < n * accounts[i].weight + w
      && n * accounts[i].weight <= w * picks[accounts[i].id] + (|accounts| - 1) * w
      && forall m: nat :: n == m * w ==> picks[accounts[i].id] == m * accounts[i].weight
  }

  lemma BalancedFair(accounts: seq<Account>, c: map<string, int>, n: nat, picks: multiset<string>)
    requires Balanced(accounts, c, n, picks) && Positive(accounts) && accounts != []
    ensures Fair(accounts, n, picks)
  {
    var w := TotalWeight(accounts, |accounts|);
    forall m: nat | n == m * w
      ensures forall i :: 0 <= i < |accounts| ==> picks[accounts[i].id] == m * accounts[i].weight
    {
      FullCycles(accounts, c, n, picks, m);
    }
    forall i | 0 <= i < |accounts|
      ensures n * accounts[i].weight <= w * picks[accounts[i].id] + (|accounts| - 1) * w
    {
      BalancedBehind(accounts, c, n, picks, i);
    }
  }

  lemma {:induction false} PickBalanced(accounts: seq<Account>, c: map<string, int>, n: nat, picks: multiset<string>, i: nat, d: map<string, int>)
    requires accounts != [] && DistinctIds(accounts) && Positive(accounts) && i < |accounts|
    requires |accounts| * TotalWeight(accounts, |accounts|) <= MAX_INT64
    requires Balanced(accounts, c, n, picks) && Picked(accounts, c, i, d)
    ensures Balanced(accounts, d, n + 1, picks + multiset{accounts[i].id})
  {
    BalancedInRange(accounts, c, n, picks);
    NoSaturation(accounts, c, i, d);
    StepBalanced(accounts, c, n, picks, i, d);
  }

  // One pick more.
  method PickNext(state: SmoothState, accounts: seq<Account>, picked: seq<string>) returns (more: seq<string>)
    requires accounts != [] && DistinctIds(accounts) && Positive(accounts)
    requires |accounts| * TotalWeight(accounts, |accounts|) <= MAX_INT64
    requires Balanced(accounts, state.current, |picked|, multiset(picked))
    modifies state
    ensures |more| == |picked| + 1 && Balanced(accounts, state.current, |more|, multiset(more))
  {
    ghost var before := state.current;
    AllWeighted(accounts, |accounts|);
    assert accounts[..|accounts|] == accounts;
    var r;
    ghost var i;
    r, i := state.PickSmoothWeighted(accounts);
    PickBalanced(accounts, before, |picked|, multiset(picked), i, state.current);
    more := picked + [r.value.id];
    assert multiset(more) == multiset(picked) + multiset{accounts[i].id};
  }

  /** Picks n times from an unchanged list of accounts, starting fresh: fair at every moment. */
  method Run(accounts: seq<Account>, n: nat) returns (picked: seq<string>)
    requires accounts != [] && DistinctIds(accounts) && Positive(accounts)
    requires |accounts| * TotalWeight(accounts, |accounts|) <= MAX_INT64
    ensures |picked| == n && Fair(accounts, n, multiset(picked))
  {
    var state := new SmoothState();
    picked := [];
    StartBalanced(accounts, |accounts|);
    TotalWeightMonotone(accounts, 0, |accounts|);
    for k := 0 to n
      invariant fresh(state) && |picked| == k
      invariant Balanced(accounts, state.current, k, multiset(picked))
    {
      picked := PickNext(state, accounts, picked);
    }
    BalancedFair(accounts, state.current, n, multiset(picked));
  }

  lemma {:induction false} StartBalanced(accounts: seq<Account>, n: nat)
    requires n <= |accounts|
    ensures TotalCurrent(accounts, map[], n) == 0 && TotalPicks(accounts, multiset{}, n) == 0
  {
    if n > 0 {
      StartBalanced(accounts, n - 1);
    }
  }
}
