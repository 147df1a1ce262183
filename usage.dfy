/**
 * The "all localities" branch of the network-usage view: the per-locality
 * `usage_stats` objects are merged by summing counts, percentages are
 * recomputed from the merged counts, and the dominant network is the first key
 * of a stable descending sort by percentage. Also the chart rows built from
 * the stats (pie, bar and trend data).
 *
 * A `NetworkUsageStats` object is modelled by its entries in key order, as
 * `Object.entries` lists them. Network-type names such as "4G" are not
 * integer-like, so that order is insertion order.
 */
module NetworkUsage {
  import opened Wrappers

  /** One key of a `NetworkUsageStats` object with its `{count, percentage}`. */
  datatype Entry = Entry(network: string, count: nat, percentage: real)

  /** The keys of an object are distinct. */
  ghost predicate DistinctKeys(u: seq<Entry>)
  {
    forall i, j :: 0 <= i < j < |u| ==> u[i].network != u[j].network
  }

  /** Where `net` sits among the keys; `|u|` when it is not a key. */
  function IndexOf(u: seq<Entry>, net: string): (r: nat)
    ensures r <= |u|
    ensures r < |u| ==> u[r].network == net
    ensures forall j :: 0 <= j < r ==> u[j].network != net
  {
    if u == [] then 0 else if u[0].network == net then 0 else 1 + IndexOf(u[1..], net)
  }

  predicate HasKey(u: seq<Entry>, net: string)
  {
    IndexOf(u, net) < |u|
  }

  /** With distinct keys, the lookup of key `u[j].network` lands on `j`. */
  lemma IndexOfUnique(u: seq<Entry>, j: nat)
    requires DistinctKeys(u) && j < |u|
    ensures IndexOf(u, u[j].network) == j
  {
  }

  /** `u[net]?.count ?? 0`. */
  function CountOf(u: seq<Entry>, net: string): nat
  {
    var i := IndexOf(u, net);
    if i < |u| then u[i].count else 0
  }

  /** The sum of all counts of an object. */
  function Sum(u: seq<Entry>): nat
  {
    if u == [] then 0 else Sum(u[..|u| - 1]) + u[|u| - 1].count
  }

  /** One element of `allStats`: a locality name and its `usage_stats`, which the response may lack. */
  datatype LocalityStat = LocalityStat(locality: string, usage: Option<seq<Entry>>)

  /** `stat.usage_stats || {}`. */
  function StatsOf(s: LocalityStat): seq<Entry>
  {
    s.usage.GetOr([])
  }

  ghost predicate AllDistinct(allStats: seq<LocalityStat>)
  {
    forall i :: 0 <= i < |allStats| ==> DistinctKeys(StatsOf(allStats[i]))
  }

  // ---------------------------------------------------------------------------
  // Specification of the merge
  // ---------------------------------------------------------------------------

  /** No entry has a percentage yet: the merge creates every entry with percentage 0 and only adds to counts. */
  predicate NoPercentages(u: seq<Entry>)
  {
    forall i :: 0 <= i < |u| ==> u[i].percentage == 0.0
  }

  /** One step of the inner `forEach`: create `{count: 0, percentage: 0}` if `net` is absent, then add `c`. */
  function AddCount(acc: seq<Entry>, net: string, c: nat): (r: seq<Entry>)
    ensures NoPercentages(acc) ==> NoPercentages(r)
  {
    var i := IndexOf(acc, net);
    var a := if i < |acc| then acc else acc + [Entry(net, 0, 0.0)];
    a[i := a[i].(count := a[i].count + c)]
  }

  /** The inner `forEach` applied to the entries `es` of one locality. */
  function MergeEntries(acc: seq<Entry>, es: seq<Entry>): (r: seq<Entry>)
    ensures NoPercentages(acc) ==> NoPercentages(r)
  {
    if es == [] then acc
    else
      var e := es[|es| - 1];
      AddCount(MergeEntries(acc, es[..|es| - 1]), e.network, e.count)
  }

  /** `aggregated` after the outer `forEach` has visited `allStats`. */
  function MergeAll(allStats: seq<LocalityStat>): (r: seq<Entry>)
    ensures NoPercentages(r)
  {
    if allStats == [] then []
    else MergeEntries(MergeAll(allStats[..|allStats| - 1]), StatsOf(allStats[|allStats| - 1]))
  }

  /** What `totalRecords` accumulates: every count of every type of every locality. */
  function TotalRecords(allStats: seq<LocalityStat>): nat
  {
    if allStats == [] then 0
    else TotalRecords(allStats[..|allStats| - 1]) + Sum(StatsOf(allStats[|allStats| - 1]))
  }

  /** The independent reference: the sum over all localities of their counts for `net`. */
  function SumCount(allStats: seq<LocalityStat>, net: string): nat
  {
    if allStats == [] then 0
    else SumCount(allStats[..|allStats| - 1], net) + CountOf(StatsOf(allStats[|allStats| - 1]), net)
  }

  // ---------------------------------------------------------------------------
  // The merge loops
  // ---------------------------------------------------------------------------

  /** `allStats` built by `push` in the `for` loop; the awaited answers are supplied as `results`. */
  method CollectStats(localities: seq<string>, results: seq<Option<seq<Entry>>>) returns (allStats: seq<LocalityStat>)
    requires |results| == |localities|
    ensures |allStats| == |localities|
    ensures forall i :: 0 <= i < |allStats| ==> allStats[i] == LocalityStat(localities[i], results[i])
  {
    allStats := [];
    var i := 0;
    while i < |localities|
      invariant 0 <= i <= |localities|
      invariant |allStats| == i
      invariant forall k :: 0 <= k < i ==> allStats[k] == LocalityStat(localities[k], results[k])
    {
      allStats := allStats + [LocalityStat(localities[i], results[i])];
      i := i + 1;
    }
  }

  /** The inner `forEach` over one locality's keys. */
  method MergeLocality(acc: seq<Entry>, total: nat, u: seq<Entry>) returns (aggregated: seq<Entry>, totalRecords: nat)
    ensures aggregated == MergeEntries(acc, u)
    ensures totalRecords == total + Sum(u)
  {
    aggregated, totalRecords := acc, total;
    var j := 0;
    while j < |u|
      invariant 0 <= j <= |u|
      invariant aggregated == MergeEntries(acc, u[..j])
      invariant totalRecords == total + Sum(u[..j])
    {
      var net := u[j].network;
      var i := IndexOf(aggregated, net);
      if i == |aggregated| {
        aggregated := aggregated + [Entry(net, 0, 0.0)];
      }
      aggregated := aggregated[i := aggregated[i].(count := aggregated[i].count + u[j].count)];
      totalRecords := totalRecords + u[j].count;
      assert u[..j + 1][..j] == u[..j];
      j := j + 1;
    }
    assert u[..|u|] == u;
  }

  /** The outer `forEach` over `allStats`. */
  method MergeCounts(allStats: seq<LocalityStat>) returns (aggregated: seq<Entry>, totalRecords: nat)
    ensures aggregated == MergeAll(allStats)
    ensures totalRecords == TotalRecords(allStats)
  {
    aggregated, totalRecords := [], 0;
    var i := 0;
    while i < |allStats|
      invariant 0 <= i <= |allStats|
      invariant aggregated == MergeAll(allStats[..i])
      invariant totalRecords == TotalRecords(allStats[..i])
    {
      aggregated, totalRecords := MergeLocality(aggregated, totalRecords, StatsOf(allStats[i]));
      assert allStats[..i + 1][..i] == allStats[..i];
      i := i + 1;
    }
    assert allStats[..|allStats|] == allStats;
  }

  // ---------------------------------------------------------------------------
  // What the merge computes
  // ---------------------------------------------------------------------------

  /** Changing one count changes the sum by the difference. */
  lemma {:induction false} SumUpdate(u: seq<Entry>, i: nat, c: nat)
    requires i < |u|
    ensures Sum(u[i := u[i].(count := c)]) + u[i].count == Sum(u) + c
  {
    var v := u[i := u[i].(count := c)];
    if i < |u| - 1 {
      assert v[..|v| - 1] == u[..|u| - 1][i := u[i].(count := c)];
      SumUpdate(u[..|u| - 1], i, c);
    } else {
      assert v[..|v| - 1] == u[..|u| - 1];
    }
  }

  lemma SumSnoc(u: seq<Entry>, e: Entry)
    ensures Sum(u + [e]) == Sum(u) + e.count
  {
    assert (u + [e])[..|u|] == u;
  }

  /** The sequence one step of the merge writes into, before the count is added. */
  function Grown(acc: seq<Entry>, net: string): seq<Entry>
  {
    if IndexOf(acc, net) < |acc| then acc else acc + [Entry(net, 0, 0.0)]
  }

  lemma GrownKeys(acc: seq<Entry>, net: string)
    requires DistinctKeys(acc)
    ensures IndexOf(acc, net) < |Grown(acc, net)| && Grown(acc, net)[IndexOf(acc, net)].network == net
    ensures DistinctKeys(Grown(acc, net))
    ensures forall j :: 0 <= j < |acc| ==> Grown(acc, net)[j] == acc[j]
    ensures Sum(Grown(acc, net)) == Sum(acc)
  {
    if IndexOf(acc, net) == |acc| {
      var e := Entry(net, 0, 0.0);
      var g := acc + [e];
      SumSnoc(acc, e);
      forall a, b | 0 <= a < b < |g|
        ensures g[a].network != g[b].network
      {
        assert g[a] == acc[a];
        if b < |acc| {
          assert g[b] == acc[b];
        }
      }
    }
  }

  /**
   * One step of the merge keeps the keys distinct, adds `net` as a key
   * (at the end when new) and adds `c` to `net`'s count only; the sum of the
   * counts grows by `c`.
   */
  lemma AddCountEffect(acc: seq<Entry>, net: string, c: nat)
    requires DistinctKeys(acc)
    ensures DistinctKeys(AddCount(acc, net, c))
    ensures forall k :: HasKey(AddCount(acc, net, c), k) <==> HasKey(acc, k) || k == net
    ensures forall k :: CountOf(AddCount(acc, net, c), k) == CountOf(acc, k) + (if k == net then c else 0)
    ensures Sum(AddCount(acc, net, c)) == Sum(acc) + c
  {
    AddCountShape(acc, net, c);
    forall k ensures (HasKey(AddCount(acc, net, c), k) <==> HasKey(acc, k) || k == net)
      && CountOf(AddCount(acc, net, c), k) == CountOf(acc, k) + (if k == net then c else 0)
    {
      AddCountLookup(acc, net, c, k);
    }
    AddCountSum(acc, net, c);
  }

  /** One step of the merge adds `c` to the sum of the counts. */
  lemma AddCountSum(acc: seq<Entry>, net: string, c: nat)
    ensures Sum(AddCount(acc, net, c)) == Sum(acc) + c
  {
    var i := IndexOf(acc, net);
    var a := Grown(acc, net);
    if i == |acc| {
      SumSnoc(acc, Entry(net, 0, 0.0));
    }
    assert Sum(a) == Sum(acc);
    SumUpdate(a, i, a[i].count + c);
  }

  /** The entry one step of the merge writes: `net`'s, at its old place or at the end. */
  lemma AddCountShape(acc: seq<Entry>, net: string, c: nat)
    requires DistinctKeys(acc)
    ensures var i := IndexOf(acc, net); var r := AddCount(acc, net, c);
      |r| == |Grown(acc, net)| && i < |r| && DistinctKeys(r)
      && r[i] == Grown(acc, net)[i].(count := Grown(acc, net)[i].count + c)
      && (forall j :: 0 <= j < |r| && j != i ==> r[j] == Grown(acc, net)[j])
  {
    GrownKeys(acc, net);
    var r := AddCount(acc, net, c);
    assert forall j :: 0 <= j < |r| ==> r[j].network == Grown(acc, net)[j].network;
  }

  lemma AddCountLookup(acc: seq<Entry>, net: string, c: nat, k: string)
    requires DistinctKeys(acc)
    ensures HasKey(AddCount(acc, net, c), k) <==> HasKey(acc, k) || k == net
    ensures CountOf(AddCount(acc, net, c), k) == CountOf(acc, k) + (if k == net then c else 0)
  {
    var i := IndexOf(acc, net);
    var a := Grown(acc, net);
    GrownKeys(acc, net);
    AddCountShape(acc, net, c);
    var r := AddCount(acc, net, c);
    var j := IndexOf(acc, k);
    if k == net {
      IndexOfUnique(r, i);
    } else if j < |acc| {
      IndexOfUnique(r, j);
    } else {
      assert forall m :: 0 <= m < |r| ==> r[m].network != k;
    }
  }

  /** Dropping the last entry of a distinct object removes exactly its key and its count. */
  lemma DropLast(u: seq<Entry>)
    requires DistinctKeys(u) && u != []
    ensures DistinctKeys(u[..|u| - 1])
    ensures forall k :: HasKey(u, k) <==> HasKey(u[..|u| - 1], k) || k == u[|u| - 1].network
    ensures forall k :: CountOf(u, k) == CountOf(u[..|u| - 1], k) + (if k == u[|u| - 1].network then u[|u| - 1].count else 0)
  {
    var f := u[..|u| - 1];
    var last := u[|u| - 1];
    forall k ensures (HasKey(u, k) <==> HasKey(f, k) || k == last.network)
      && CountOf(u, k) == CountOf(f, k) + (if k == last.network then last.count else 0)
    {
      var j := IndexOf(f, k);
      if j < |f| {
        assert f[j] == u[j];
        IndexOfUnique(u, j);
      } else if k == last.network {
        IndexOfUnique(u, |u| - 1);
      } else {
        assert forall m :: 0 <= m < |u| ==> u[m].network != k;
      }
    }
  }

  lemma {:induction false} MergeEntriesEffect(acc: seq<Entry>, es: seq<Entry>)
    requires DistinctKeys(acc) && DistinctKeys(es)
    ensures DistinctKeys(MergeEntries(acc, es))
    ensures forall k :: HasKey(MergeEntries(acc, es), k) <==> HasKey(acc, k) || HasKey(es, k)
    ensures forall k :: CountOf(MergeEntries(acc, es), k) == CountOf(acc, k) + CountOf(es, k)
    ensures Sum(MergeEntries(acc, es)) == Sum(acc) + Sum(es)
  {
    if es != [] {
      var e := es[|es| - 1];
      DropLast(es);
      MergeEntriesEffect(acc, es[..|es| - 1]);
      AddCountEffect(MergeEntries(acc, es[..|es| - 1]), e.network, e.count);
    }
  }

  /** Some locality's `usage_stats` has key `net`. */
  ghost predicate SomeLocalityHas(allStats: seq<LocalityStat>, net: string)
  {
    exists i :: 0 <= i < |allStats| && HasKey(StatsOf(allStats[i]), net)
  }

  /**
   * The merged object has distinct keys; its keys are exactly those that
   * some locality's `usage_stats` has; each merged count is the sum of that
   * type's counts over all localities (a locality without `usage_stats`
   * adds nothing); and the merged counts add up to `totalRecords`.
   */
  lemma {:induction false} MergeAllIsSum(allStats: seq<LocalityStat>)
    requires AllDistinct(allStats)
    ensures DistinctKeys(MergeAll(allStats))
    ensures forall net :: HasKey(MergeAll(allStats), net) <==> SomeLocalityHas(allStats, net)
    ensures forall net :: CountOf(MergeAll(allStats), net) == SumCount(allStats, net)
    ensures Sum(MergeAll(allStats)) == TotalRecords(allStats)
  {
    if allStats != [] {
      var front := allStats[..|allStats| - 1];
      var last := StatsOf(allStats[|allStats| - 1]);
      FrontDistinct(allStats);
      MergeAllIsSum(front);
      MergeEntriesEffect(MergeAll(front), last);
      SomeLocalityHasSnoc(allStats);
    }
  }

  lemma FrontDistinct(allStats: seq<LocalityStat>)
    requires AllDistinct(allStats) && allStats != []
    ensures AllDistinct(allStats[..|allStats| - 1]) && DistinctKeys(StatsOf(allStats[|allStats| - 1]))
  {
    var front := allStats[..|allStats| - 1];
    forall i | 0 <= i < |front| ensures DistinctKeys(StatsOf(front[i])) {
      assert front[i] == allStats[i];
    }
  }

  /** A key some locality has is had by one of the earlier localities or by the last. */
  lemma SomeLocalityHasSnoc(allStats: seq<LocalityStat>)
    requires allStats != []
    ensures var front := allStats[..|allStats| - 1];
      forall net :: SomeLocalityHas(allStats, net) <==>
        SomeLocalityHas(front, net) || HasKey(StatsOf(allStats[|allStats| - 1]), net)
  {
    var front := allStats[..|allStats| - 1];
    forall net ensures SomeLocalityHas(allStats, net) <==> SomeLocalityHas(front, net) || HasKey(StatsOf(allStats[|allStats| - 1]), net) {
      if SomeLocalityHas(front, net) {
        var i :| 0 <= i < |front| && HasKey(StatsOf(front[i]), net);
        assert front[i] == allStats[i];
      }
      if SomeLocalityHas(allStats, net) {
        var i :| 0 <= i < |allStats| && HasKey(StatsOf(allStats[i]), net);
        if i < |front| {
          assert front[i] == allStats[i];
        }
      }
    }
  }

  // ---------------------------------------------------------------------------
  // Percentages
  // ---------------------------------------------------------------------------

  function Percent(count: nat, total: nat): real
    requires total > 0
  {
    count as real / total as real * 100.0
  }

  /** Every percentage recomputed as `count / totalRecords * 100`; keys and counts stay. */
  function WithPercentages(agg: seq<Entry>, total: nat): (r: seq<Entry>)
    requires total > 0 || agg == []
    ensures |r| == |agg|
    ensures forall i :: 0 <= i < |r| ==> r[i].network == agg[i].network && r[i].count == agg[i].count && r[i].percentage >= 0.0
  {
    seq(|agg|, i requires 0 <= i < |agg| => agg[i].(percentage := Percent(agg[i].count, total)))
  }

  /**
   * The `forEach` that overwrites `aggregated[network].percentage` key by key.
   * A `totalRecords` of 0 with keys present would divide by zero.
   */
  method AssignPercentages(agg: seq<Entry>, total: nat) returns (r: seq<Entry>)
    requires DistinctKeys(agg)
    requires total > 0 || agg == []
    ensures r == WithPercentages(agg, total)
  {
    r := agg;
    var j := 0;
    while j < |agg|
      invariant 0 <= j <= |agg| && |r| == |agg|
      invariant forall m :: 0 <= m < |agg| ==> r[m].network == agg[m].network && r[m].count == agg[m].count
      invariant forall m :: 0 <= m < j ==> r[m] == agg[m].(percentage := Percent(agg[m].count, total))
      invariant forall m :: j <= m < |agg| ==> r[m] == agg[m]
    {
      var net := agg[j].network;
      assert DistinctKeys(r);
      IndexOfUnique(r, j);
      var i := IndexOf(r, net);
      r := r[i := r[i].(percentage := Percent(r[i].count, total))];
      j := j + 1;
    }
  }

  /** The sum of the percentages of an object. */
  function PctSum(u: seq<Entry>): real
  {
    if u == [] then 0.0 else PctSum(u[..|u| - 1]) + u[|u| - 1].percentage
  }

  lemma {:induction false} PctSumIsScaledSum(agg: seq<Entry>, total: nat)
    requires total > 0
    ensures PctSum(WithPercentages(agg, total)) == Sum(agg) as real / total as real * 100.0
  {
    if agg != [] {
      var front := agg[..|agg| - 1];
      var w := WithPercentages(agg, total);
      assert w[..|w| - 1] == WithPercentages(front, total);
      PctSumIsScaledSum(front, total);
      assert PctSum(w) == PctSum(w[..|w| - 1]) + Percent(agg[|agg| - 1].count, total);
      assert Sum(agg) == Sum(front) + agg[|agg| - 1].count;
      ScaledSplit(Sum(front) as real, agg[|agg| - 1].count as real, total as real);
    }
  }

  lemma ScaledSplit(a: real, c: real, t: real)
    requires t > 0.0
    ensures (a + c) / t * 100.0 == a / t * 100.0 + c / t * 100.0
  {
    assert (a + c) / t == a / t + c / t;
  }

  lemma WholeIsHundred(n: nat)
    requires n > 0
    ensures n as real / n as real * 100.0 == 100.0
  {
  }

  /** When the counts add up to a positive `totalRecords`, the recomputed percentages add up to 100. */
  lemma PercentagesSumTo100(agg: seq<Entry>, total: nat)
    requires total > 0 && total == Sum(agg)
    ensures PctSum(WithPercentages(agg, total)) == 100.0
  {
    PctSumIsScaledSum(agg, total);
    WholeIsHundred(total);
  }

  // ---------------------------------------------------------------------------
  // Dominant network
  // ---------------------------------------------------------------------------

  /** The entry among the first `n` that a stable descending sort by percentage puts first: the earliest maximum. */
  function BestIndex(u: seq<Entry>, n: nat): (b: nat)
    requires 0 < n <= |u|
    ensures b < n
    ensures forall i :: 0 <= i < n ==> u[i].percentage <= u[b].percentage
    ensures forall i :: 0 <= i < b ==> u[i].percentage < u[b].percentage
  {
    if n == 1 then 0
    else
      var b := BestIndex(u, n - 1);
      if u[n - 1].percentage > u[b].percentage then n - 1 else b
  }

  /**
   * `Object.keys(u).sort((a, b) => u[b].percentage - u[a].percentage)[0] || ''`:
   * `''` for an empty object; otherwise a key whose percentage no entry
   * exceeds and that comes before every other entry with the same percentage.
   */
  function Dominant(u: seq<Entry>): (r: string)
    ensures u == [] ==> r == ""
    ensures u != [] ==> exists b :: (0 <= b < |u| && u[b].network == r
      && (forall i :: 0 <= i < |u| ==> u[i].percentage <= u[b].percentage)
      && (forall i :: 0 <= i < b ==> u[i].percentage < u[b].percentage))
  {
    if u == [] then "" else u[BestIndex(u, |u|)].network
  }

  lemma DivideMonotone(x: real, y: real, t: real)
    requires x < y && t > 0.0
    ensures x / t * 100.0 < y / t * 100.0
  {
    assert y / t - x / t == (y - x) / t;
  }

  /** The entry the dominant network comes from also has the largest merged count, since percentages are counts scaled by one positive factor. */
  lemma DominantHasLargestCount(agg: seq<Entry>, total: nat)
    requires total > 0 && agg != []
    ensures var u := WithPercentages(agg, total); var b := BestIndex(u, |u|);
      forall i :: 0 <= i < |agg| ==> agg[i].count <= agg[b].count
  {
    var u := WithPercentages(agg, total);
    var b := BestIndex(u, |u|);
    forall i | 0 <= i < |agg| ensures agg[i].count <= agg[b].count {
      assert u[i].percentage <= u[b].percentage;
      if agg[i].count > agg[b].count {
        DivideMonotone(agg[b].count as real, agg[i].count as real, total as real);
      }
    }
  }

  // ---------------------------------------------------------------------------
  // The whole "all" branch of loadUsageData
  // ---------------------------------------------------------------------------

  ghost function Collected(localities: seq<string>, results: seq<Option<seq<Entry>>>): seq<LocalityStat>
    requires |results| == |localities|
  {
    seq(|localities|, i requires 0 <= i < |localities| => LocalityStat(localities[i], results[i]))
  }

  /** Lookups only see the keys and counts. */
  lemma {:induction false} SameKeysSameLookup(u: seq<Entry>, v: seq<Entry>, net: string)
    requires |u| == |v| && forall j :: 0 <= j < |u| ==> u[j].network == v[j].network && u[j].count == v[j].count
    ensures IndexOf(u, net) == IndexOf(v, net)
    ensures HasKey(u, net) == HasKey(v, net) && CountOf(u, net) == CountOf(v, net)
  {
    if u != [] && u[0].network != net {
      SameKeysSameLookup(u[1..], v[1..], net);
    }
  }

  /**
   * Collect, merge, recompute percentages and pick the dominant type. The
   * caller's obligation is the case JavaScript turns into NaN percentages:
   * some key present while every count is 0.
   */
  method LoadAllUsage(localities: seq<string>, results: seq<Option<seq<Entry>>>)
    returns (allStats: seq<LocalityStat>, usageStats: seq<Entry>, dominant: string)
    requires |results| == |localities|
    requires AllDistinct(Collected(localities, results))
    requires TotalRecords(Collected(localities, results)) > 0 || MergeAll(Collected(localities, results)) == []
    ensures allStats == Collected(localities, results)
    ensures DistinctKeys(usageStats)
    ensures forall net :: HasKey(usageStats, net) <==> SomeLocalityHas(allStats, net)
    ensures forall net :: CountOf(usageStats, net) == SumCount(allStats, net)
    ensures usageStats == WithPercentages(MergeAll(allStats), TotalRecords(allStats))
    ensures TotalRecords(allStats) > 0 ==> PctSum(usageStats) == 100.0
    ensures dominant == Dominant(usageStats)
  {
    allStats := CollectStats(localities, results);
    assert allStats == Collected(localities, results);
    var aggregated, totalRecords := MergeCounts(allStats);
    MergeAllIsSum(allStats);
    usageStats := AssignPercentages(aggregated, totalRecords);
    if totalRecords > 0 {
      PercentagesSumTo100(aggregated, totalRecords);
    }
    assert forall j :: 0 <= j < |usageStats| ==> usageStats[j].network == aggregated[j].network && usageStats[j].count == aggregated[j].count;
    forall net ensures (HasKey(usageStats, net) <==> HasKey(aggregated, net)) && CountOf(usageStats, net) == CountOf(aggregated, net) {
      SameKeysSameLookup(usageStats, aggregated, net);
    }
    dominant := Dominant(usageStats);
  }

  // ---------------------------------------------------------------------------
  // Chart rows
  // ---------------------------------------------------------------------------

  /** `pieData`: one slice per key, in key order, carrying the percentage. */
  function PieData(u: seq<Entry>): (r: seq<(string, real)>)
    ensures |r| == |u|
    ensures forall i :: 0 <= i < |u| ==> r[i] == (u[i].network, u[i].percentage)
  {
    seq(|u|, i requires 0 <= i < |u| => (u[i].network, u[i].percentage))
  }

  function SliceTotal(slices: seq<(string, real)>): real
  {
    if slices == [] then 0.0 else SliceTotal(slices[..|slices| - 1]) + slices[|slices| - 1].1
  }

  /** The slices add up to the sum of the percentages, hence to 100 after a merge with a positive total. */
  lemma {:induction false} PieTotal(u: seq<Entry>)
    ensures SliceTotal(PieData(u)) == PctSum(u)
  {
    if u != [] {
      assert PieData(u)[..|u| - 1] == PieData(u[..|u| - 1]);
      PieTotal(u[..|u| - 1]);
    }
  }

  /** Without its last entry a distinct object keeps distinct keys, and a key `u` lacks is lacked by both parts. */
  lemma LastKeyOnly(u: seq<Entry>)
    requires DistinctKeys(u) && u != []
    ensures DistinctKeys(u[..|u| - 1])
    ensures forall i :: 0 <= i < |u| - 1 ==> u[i].network != u[|u| - 1].network
    ensures forall k :: !HasKey(u, k) ==> !HasKey(u[..|u| - 1], k) && k != u[|u| - 1].network
  {
    var f := u[..|u| - 1];
    forall k | !HasKey(u, k) ensures !HasKey(f, k) && k != u[|u| - 1].network {
    }
  }

  /** A value in a chart row object: a string, a number, or `undefined`. */
  datatype Cell = Label(text: string) | Number(value: real) | Undefined

  /** `data[network] = usage_stats[network].percentage` for each entry of `u`, starting from `row`. */
  function BarFields(row: map<string, Cell>, u: seq<Entry>): map<string, Cell>
  {
    if u == [] then row
    else BarFields(row, u[..|u| - 1])[u[|u| - 1].network := Number(u[|u| - 1].percentage)]
  }

  /** With distinct keys, every entry's key holds its own percentage and every other key of `row` is kept. */
  lemma {:induction false} BarFieldsValues(row: map<string, Cell>, u: seq<Entry>)
    requires DistinctKeys(u)
    ensures forall i :: 0 <= i < |u| ==> u[i].network in BarFields(row, u) && BarFields(row, u)[u[i].network] == Number(u[i].percentage)
    ensures forall k :: k in row && !HasKey(u, k) ==> k in BarFields(row, u) && BarFields(row, u)[k] == row[k]
  {
    if u != [] {
      var f := u[..|u| - 1];
      LastKeyOnly(u);
      BarFieldsValues(row, f);
      forall i | 0 <= i < |f| ensures f[i] == u[i] {
      }
    }
  }

  /**
   * A `barData` row: `{locality, [network]: percentage, ...}`. A network
   * named "locality" overwrites the name, as the JavaScript object does.
   */
  function BarRow(s: LocalityStat): (row: map<string, Cell>)
    requires DistinctKeys(StatsOf(s))
    ensures !HasKey(StatsOf(s), "locality") ==> "locality" in row && row["locality"] == Label(s.locality)
    ensures forall i :: 0 <= i < |StatsOf(s)| ==>
      StatsOf(s)[i].network in row && row[StatsOf(s)[i].network] == Number(StatsOf(s)[i].percentage)
  {
    BarFieldsValues(map["locality" := Label(s.locality)], StatsOf(s));
    BarFields(map["locality" := Label(s.locality)], StatsOf(s))
  }

  /** `barData`: one row per locality, in `allLocalitiesStats` order. */
  function BarData(allStats: seq<LocalityStat>): (rows: seq<map<string, Cell>>)
    requires AllDistinct(allStats)
    ensures |rows| == |allStats|
    ensures forall i :: 0 <= i < |rows| ==> rows[i] == BarRow(allStats[i])
  {
    seq(|allStats|, i requires 0 <= i < |allStats| => BarRow(allStats[i]))
  }

  /** One element of `trends`: a network type with parallel `dates` and `counts` arrays. */
  datatype Trend = Trend(networkType: string, dates: seq<string>, counts: seq<nat>)

  /** `{date, [network_type]: counts[idx]}`; a missing count is `undefined`. */
  function TrendPoint(t: Trend, idx: nat): map<string, Cell>
    requires idx < |t.dates|
  {
    map["date" := Label(t.dates[idx])][t.networkType := if idx < |t.counts| then Number(t.counts[idx] as real) else Undefined]
  }

  function TrendPoints(t: Trend): (r: seq<map<string, Cell>>)
    ensures |r| == |t.dates|
    ensures forall idx :: 0 <= idx < |t.dates| ==> r[idx] == TrendPoint(t, idx)
  {
    seq(|t.dates|, idx requires 0 <= idx < |t.dates| => TrendPoint(t, idx))
  }

  /** `trends.flatMap(...)` over the first `n` trends. */
  function TrendData(trends: seq<Trend>, n: nat): seq<map<string, Cell>>
    requires n <= |trends|
  {
    if n == 0 then [] else TrendData(trends, n - 1) + TrendPoints(trends[n - 1])
  }

  /** The number of dates in the first `n` trends: where trend `n`'s points start. */
  function Offset(trends: seq<Trend>, n: nat): nat
    requires n <= |trends|
  {
    if n == 0 then 0 else Offset(trends, n - 1) + |trends[n - 1].dates|
  }

  lemma {:induction false} TrendDataLength(trends: seq<Trend>, n: nat)
    requires n <= |trends|
    ensures |TrendData(trends, n)| == Offset(trends, n)
  {
    if n > 0 {
      TrendDataLength(trends, n - 1);
    }
  }

  /**
   * `trendData` has one point per date of every trend: point k of trend t
   * sits right after the points of the earlier trends and pairs `dates[k]`
   * with `counts[k]`.
   */
  lemma {:induction false} TrendDataLayout(trends: seq<Trend>, n: nat, t: nat, k: nat)
    requires t < n <= |trends| && k < |trends[t].dates|
    ensures Offset(trends, t) + k < Offset(trends, n) == |TrendData(trends, n)|
    ensures TrendData(trends, n)[Offset(trends, t) + k] == TrendPoint(trends[t], k)
  {
    TrendDataLength(trends, n);
    TrendDataLength(trends, n - 1);
    var front := TrendData(trends, n - 1);
    var back := TrendPoints(trends[n - 1]);
    if t < n - 1 {
      TrendDataLayout(trends, n - 1, t, k);
      assert (front + back)[Offset(trends, t) + k] == front[Offset(trends, t) + k];
    } else {
      assert (front + back)[|front| + k] == back[k];
    }
  }

  /** A point names its date and carries its count, or `undefined`, under the network's key; "date" as a network name shadows the date. */
  lemma TrendPointFields(t: Trend, idx: nat)
    requires idx < |t.dates|
    ensures t.networkType in TrendPoint(t, idx) && "date" in TrendPoint(t, idx)
    ensures t.networkType != "date" ==> TrendPoint(t, idx)["date"] == Label(t.dates[idx])
    ensures TrendPoint(t, idx)[t.networkType] == if idx < |t.counts| then Number(t.counts[idx] as real) else Undefined
  {
  }
}
