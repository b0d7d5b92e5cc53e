/**
 * `get_tfa_conversion_status`: tool placements (current-period TFA lines of
 * the FASTENER TOOLS category) that cost more than 500, each with what its
 * customer's core business did afterwards.
 *
 * The statement's three aggregates become maps: TFA net gross profit per
 * (customer, region), current core revenue and gross profit per customer,
 * comparison-period core revenue per customer. The output is then built
 * from them as the outer query does: HAVING, LEFT JOIN, COALESCE, CASE,
 * ORDER BY. `ConversionRowsSpec` relates that output to a reference
 * computed line by line from the fact table.
 */
module Conversion {
  import opened Wrappers
  import opened Facts
  import opened Margin

  /** The REPORT_CONTROL row: the two periods the report compares. */
  datatype Config = Config(currentPeriod: string, comparisonPeriod: string)

  const ToolsCategory := "FASTENER TOOLS"
  /** Net gross profit a placement must fall strictly below. */
  const LossThreshold := -500

  /** REVENUE_STATUS, a closed set of four labels. */
  datatype Status = NewAccount | NoRevenueYet | Growing | FlatOrDeclining

  function Label(s: Status): string
  {
    match s
    case NewAccount => "New Account"
    case NoRevenueYet => "No Revenue Yet"
    case Growing => "Growing"
    case FlatOrDeclining => "Flat / Declining"
  }

  /** `COALESCE(x, 0)`. */
  function Coalesce(o: Option<int>): int
  {
    if o.Some? then o.value else 0
  }

  function CoalesceReal(o: Option<real>): real
  {
    if o.Some? then o.value else 0.0
  }

  /**
   * The CASE of REVENUE_STATUS. `prior` is the comparison-period row of the
   * customer (`None`: no such row), `current` the current-period one. The
   * first matching WHEN wins; the ensures say which label each input gets
   * without relying on that order, so exactly one label applies.
   */
  function Classify(prior: Option<int>, current: Option<int>): (s: Status)
    ensures s == NewAccount <==> prior.None?
    ensures s == NoRevenueYet <==> prior.Some? && Coalesce(current) == 0
    ensures s == Growing <==> prior.Some? && Coalesce(current) != 0 && Coalesce(current) > prior.value
    ensures s == FlatOrDeclining <==> prior.Some? && Coalesce(current) != 0 && Coalesce(current) <= prior.value
  {
    if prior.None? then NewAccount
    else if Coalesce(current) == 0 then NoRevenueYet
    else if Coalesce(current) > Coalesce(prior) then Growing
    else FlatOrDeclining
  }

  /**
   * The precedence cases: no prior row and no current revenue is a new
   * account, not "No Revenue Yet"; a prior row and no current revenue is
   * "No Revenue Yet"; 150 after 100 grows; 100 after 100 is flat.
   */
  lemma ClassifyExamples()
    ensures Classify(None, None) == NewAccount
    ensures Classify(None, Some(0)) == NewAccount
    ensures Classify(Some(100), None) == NoRevenueYet
    ensures Classify(Some(0), Some(0)) == NoRevenueYet
    ensures Classify(Some(100), Some(150)) == Growing
    ensures Classify(Some(100), Some(100)) == FlatOrDeclining
    ensures Label(Classify(Some(100), Some(150))) == "Growing"
  {
  }

  /** A placement is identified by customer and region (GROUP BY 1, 2 of the TFA aggregate). */
  datatype PlacementKey = PlacementKey(customer: string, region: string)

  function KeyOf(r: FactRow): PlacementKey { PlacementKey(r.parent, r.region) }

  function CustomerOf(r: FactRow): string { r.parent }

  /** WHERE of the TFA aggregate. */
  function PlacementLine(cfg: Config): FactRow -> bool
  {
    (r: FactRow) => r.period == cfg.currentPeriod && r.isTfa && r.glCode == ToolsCategory
  }

  /** WHERE of the CUR and PRI aggregates, for their period. */
  function CoreLineIn(period: string): FactRow -> bool
  {
    (r: FactRow) => r.period == period && IsCore(r)
  }

  /** The fact lines behind one placement. */
  function PlacementLines(rows: seq<FactRow>, cfg: Config, k: PlacementKey): seq<FactRow>
  {
    Filter(rows, InGroup(PlacementLine(cfg), KeyOf, k))
  }

  /** The core fact lines of one customer in one period. */
  function CoreLines(rows: seq<FactRow>, period: string, customer: string): seq<FactRow>
  {
    Filter(rows, InGroup(CoreLineIn(period), CustomerOf, customer))
  }

  /** The three common table expressions, as maps. */
  datatype Aggregates = Aggregates(
    tfa: map<PlacementKey, int>,      // TFA.TFA_NET_GP, before HAVING
    curRevenue: map<string, int>,     // CUR.CORE_REVENUE
    curGrossProfit: map<string, int>, // numerator of CUR.CORE_MARGIN
    priRevenue: map<string, int>)     // PRI.PRIOR_REVENUE

  function Aggregate(rows: seq<FactRow>, cfg: Config): Aggregates
  {
    Aggregates(
      GroupSum(rows, PlacementLine(cfg), KeyOf, GrossProfit),
      GroupSum(rows, CoreLineIn(cfg.currentPeriod), CustomerOf, Sales),
      GroupSum(rows, CoreLineIn(cfg.currentPeriod), CustomerOf, GrossProfit),
      GroupSum(rows, CoreLineIn(cfg.comparisonPeriod), CustomerOf, Sales))
  }

  /** A LEFT JOIN lookup: `None` when the customer has no row. */
  function Lookup(m: map<string, int>, customer: string): Option<int>
  {
    if customer in m then Some(m[customer]) else None
  }

  /** One TFA aggregate row: a placement and its net gross profit. */
  datatype Placement = Placement(key: PlacementKey, netGp: int)

  /** One output row. */
  datatype ConversionRow = ConversionRow(
    customer: string,
    region: string,
    placementCost: int,
    currentRevenue: int,
    currentMarginPct: real,
    priorRevenue: int,
    status: Status)

  function Abs(x: int): nat { if x < 0 then -x else x }

  /**
   * The SELECT list for one placement: the placement joined on customer
   * with CUR and PRI, missing values coalesced to 0. Net gross profit is a
   * whole amount, so `ROUND(ABS(..), 0)` is the absolute value.
   */
  function Report(p: Placement, a: Aggregates): ConversionRow
  {
    var c := p.key.customer;
    var cur := Lookup(a.curRevenue, c);
    var gp := Lookup(a.curGrossProfit, c);
    var prior := Lookup(a.priRevenue, c);
    var margin := if cur.Some? && gp.Some? then MarginPct(cur.value, gp.value) else None;
    ConversionRow(c, p.key.region, Abs(p.netGp), Coalesce(cur), CoalesceReal(margin), Coalesce(prior),
                  Classify(prior, cur))
  }

  /**
   * The row a placement should produce, computed straight from the fact
   * lines: sums over the placement's lines and over its customer's core
   * lines of each period, a missing comparison row meaning no such line.
   */
  function Reference(rows: seq<FactRow>, cfg: Config, k: PlacementKey): ConversionRow
  {
    var net := Sum(PlacementLines(rows, cfg, k), GrossProfit);
    var cur := CoreLines(rows, cfg.currentPeriod, k.customer);
    var pri := CoreLines(rows, cfg.comparisonPeriod, k.customer);
    ConversionRow(
      k.customer, k.region, Abs(net),
      Sum(cur, Sales),
      CoalesceReal(MarginPct(Sum(cur, Sales), Sum(cur, GrossProfit))),
      Sum(pri, Sales),
      Classify(if pri == [] then None else Some(Sum(pri, Sales)),
               if cur == [] then None else Some(Sum(cur, Sales))))
  }

  /** A placement qualifies when its lines' net gross profit is below the threshold. */
  predicate Qualifies(rows: seq<FactRow>, cfg: Config, k: PlacementKey)
  {
    Sum(PlacementLines(rows, cfg, k), GrossProfit) < LossThreshold
  }

  /** The keys the kept lines carry, each once. */
  function DistinctKeys<K(==,!new)>(rows: seq<FactRow>, keep: FactRow -> bool, key: FactRow -> K): (ks: seq<K>)
    ensures forall k :: k in ks <==> exists r :: r in rows && keep(r) && key(r) == k
    ensures forall i, j :: 0 <= i < j < |ks| ==> ks[i] != ks[j]
  {
    if rows == [] then []
    else
      var rest := DistinctKeys(rows[1..], keep, key);
      var r := rows[0];
      assert forall x :: x in rows <==> x == r || x in rows[1..];
      if keep(r) && key(r) !in rest then [key(r)] + rest else rest
  }

  /** A group has lines exactly when some kept line carries its key. */
  lemma GroupNonEmpty<K>(rows: seq<FactRow>, keep: FactRow -> bool, key: FactRow -> K, k: K)
    ensures Filter(rows, InGroup(keep, key, k)) != [] <==> exists r :: r in rows && keep(r) && key(r) == k
  {
    var g := Filter(rows, InGroup(keep, key, k));
    if g != [] {
      assert g[0] in g;
    }
    if r :| r in rows && keep(r) && key(r) == k {
      assert r in g;
    }
  }

  /** Every key of a placement line has a TFA aggregate row. */
  lemma KeysAggregated(rows: seq<FactRow>, cfg: Config)
    ensures forall k :: k in DistinctKeys(rows, PlacementLine(cfg), KeyOf) ==> k in Aggregate(rows, cfg).tfa
  {
    forall k | k in DistinctKeys(rows, PlacementLine(cfg), KeyOf)
      ensures k in Aggregate(rows, cfg).tfa
    {
      GroupNonEmpty(rows, PlacementLine(cfg), KeyOf, k);
      GroupSumSpec(rows, PlacementLine(cfg), KeyOf, GrossProfit, k);
    }
  }

  /** The TFA aggregate rows, one per key. */
  function PlacementsOf(keys: seq<PlacementKey>, tfa: map<PlacementKey, int>): (ps: seq<Placement>)
    requires forall k :: k in keys ==> k in tfa
    ensures |ps| == |keys|
    ensures forall i :: 0 <= i < |ps| ==> ps[i] == Placement(keys[i], tfa[keys[i]])
  {
    if keys == [] then [] else [Placement(keys[0], tfa[keys[0]])] + PlacementsOf(keys[1..], tfa)
  }

  /** No two placements share a key. */
  predicate KeysDistinct(ps: seq<Placement>)
  {
    forall i, j :: 0 <= i < j < |ps| ==> ps[i].key != ps[j].key
  }

  /** `HAVING SUM(...) < -500`, keeping the rows' order. */
  function Qualifying(ps: seq<Placement>): (qs: seq<Placement>)
    ensures forall p :: p in qs <==> p in ps && p.netGp < LossThreshold
    ensures KeysDistinct(ps) ==> KeysDistinct(qs)
  {
    if ps == [] then []
    else
      var rest := Qualifying(ps[1..]);
      assert forall x :: x in ps <==> x == ps[0] || x in ps[1..];
      if ps[0].netGp < LossThreshold then [ps[0]] + rest else rest
  }

  predicate SortedByNet(ps: seq<Placement>)
  {
    forall i, j :: 0 <= i < j < |ps| ==> ps[i].netGp <= ps[j].netGp
  }

  /** A placement no larger than every element of a sorted list can go in front of it. */
  lemma SortedCons(x: Placement, ps: seq<Placement>)
    requires SortedByNet(ps)
    requires forall q :: q in ps ==> x.netGp <= q.netGp
    ensures SortedByNet([x] + ps)
  {
    var out := [x] + ps;
    forall i, j | 0 <= i < j < |out|
      ensures out[i].netGp <= out[j].netGp
    {
      assert out[j] == ps[j - 1];
      if i == 0 {
        assert ps[j - 1] in ps;
      } else {
        assert out[i] == ps[i - 1];
      }
    }
  }

  /** Insert into a list ordered by net gross profit, after the rows that are not larger. */
  function Insert(p: Placement, ps: seq<Placement>): (out: seq<Placement>)
    requires SortedByNet(ps)
    ensures SortedByNet(out)
    ensures multiset(out) == multiset(ps) + multiset{p}
  {
    if ps == [] then [p]
    else if p.netGp < ps[0].netGp then
      assert forall q :: q in ps ==> p.netGp <= q.netGp by {
        forall q | q in ps ensures p.netGp <= q.netGp {
          var j :| 0 <= j < |ps| && ps[j] == q;
        }
      }
      SortedCons(p, ps);
      [p] + ps
    else
      var rest := Insert(p, ps[1..]);
      assert ps == [ps[0]] + ps[1..];
      assert forall q :: q in rest ==> ps[0].netGp <= q.netGp by {
        forall q | q in rest ensures ps[0].netGp <= q.netGp {
          assert q in multiset(rest);
          if q != p {
            var j :| 0 <= j < |ps[1..]| && ps[1..][j] == q;
            assert ps[j + 1] == q;
          }
        }
      }
      SortedCons(ps[0], rest);
      [ps[0]] + rest
  }

  /** Inserting a placement whose key is new keeps the keys distinct. */
  lemma {:induction false} InsertKeysDistinct(p: Placement, ps: seq<Placement>)
    requires SortedByNet(ps) && KeysDistinct(ps)
    requires forall q :: q in ps ==> q.key != p.key
    ensures KeysDistinct(Insert(p, ps))
  {
    if ps != [] && p.netGp >= ps[0].netGp {
      InsertKeysDistinct(p, ps[1..]);
      var rest := Insert(p, ps[1..]);
      forall q | q in rest
        ensures q.key != ps[0].key
      {
        assert q in multiset(rest);
        if q != p {
          assert q in ps[1..];
          var j :| 0 <= j < |ps[1..]| && ps[1..][j] == q;
          assert ps[j + 1] == q;
        }
      }
      ConsKeysDistinct(ps[0], rest);
    }
  }

  /** A placement whose key is new can go in front of a list with distinct keys. */
  lemma ConsKeysDistinct(x: Placement, ps: seq<Placement>)
    requires KeysDistinct(ps)
    requires forall q :: q in ps ==> q.key != x.key
    ensures KeysDistinct([x] + ps)
  {
    var out := [x] + ps;
    forall i, j | 0 <= i < j < |out|
      ensures out[i].key != out[j].key
    {
      assert out[j] == ps[j - 1];
      if i == 0 {
        assert ps[j - 1] in ps;
      } else {
        assert out[i] == ps[i - 1];
      }
    }
  }

  /** `ORDER BY TFA_NET_GP ASC`: a permutation in ascending order of net gross profit. */
  function SortByNet(ps: seq<Placement>): (out: seq<Placement>)
    ensures SortedByNet(out)
    ensures multiset(out) == multiset(ps)
  {
    if ps == [] then []
    else
      var rest := SortByNet(ps[1..]);
      assert ps == [ps[0]] + ps[1..];
      Insert(ps[0], rest)
  }

  /** Sorting keeps the keys distinct. */
  lemma {:induction false} SortKeysDistinct(ps: seq<Placement>)
    requires KeysDistinct(ps)
    ensures KeysDistinct(SortByNet(ps))
  {
    if ps != [] {
      SortKeysDistinct(ps[1..]);
      var rest := SortByNet(ps[1..]);
      forall q | q in rest
        ensures q.key != ps[0].key
      {
        assert q in multiset(ps[1..]);
        var j :| 0 <= j < |ps[1..]| && ps[1..][j] == q;
        assert ps[j + 1] == q;
      }
      InsertKeysDistinct(ps[0], rest);
    }
  }

  function Reports(ps: seq<Placement>, a: Aggregates): (out: seq<ConversionRow>)
    ensures |out| == |ps|
    ensures forall i :: 0 <= i < |ps| ==> out[i] == Report(ps[i], a)
  {
    if ps == [] then [] else [Report(ps[0], a)] + Reports(ps[1..], a)
  }

  /** The TFA aggregate, one placement per key, before HAVING. */
  function Candidates(rows: seq<FactRow>, cfg: Config): seq<Placement>
  {
    KeysAggregated(rows, cfg);
    PlacementsOf(DistinctKeys(rows, PlacementLine(cfg), KeyOf), Aggregate(rows, cfg).tfa)
  }

  /** The placements behind the output, in output order. */
  function RankedPlacements(rows: seq<FactRow>, cfg: Config): seq<Placement>
  {
    SortByNet(Qualifying(Candidates(rows, cfg)))
  }

  /** The result set of `get_tfa_conversion_status`. */
  function ConversionStatus(rows: seq<FactRow>, cfg: Config): seq<ConversionRow>
  {
    Reports(RankedPlacements(rows, cfg), Aggregate(rows, cfg))
  }

  /** A placement whose net gross profit is that of its lines. */
  predicate Consistent(rows: seq<FactRow>, cfg: Config, p: Placement)
  {
    p.netGp == Sum(PlacementLines(rows, cfg, p.key), GrossProfit)
  }

  /** The joined aggregates give exactly the row computed from the lines. */
  lemma ReportMatchesReference(rows: seq<FactRow>, cfg: Config, p: Placement)
    requires Consistent(rows, cfg, p)
    ensures Report(p, Aggregate(rows, cfg)) == Reference(rows, cfg, p.key)
  {
    var c := p.key.customer;
    GroupSumSpec(rows, CoreLineIn(cfg.currentPeriod), CustomerOf, Sales, c);
    GroupSumSpec(rows, CoreLineIn(cfg.currentPeriod), CustomerOf, GrossProfit, c);
    GroupSumSpec(rows, CoreLineIn(cfg.comparisonPeriod), CustomerOf, Sales, c);
  }

  /**
   * The TFA aggregate rows: one per key, each with the net gross profit of
   * its lines, and every key whose lines lose more than the threshold among
   * them.
   */
  lemma CandidatesSpec(rows: seq<FactRow>, cfg: Config)
    ensures forall p :: p in Candidates(rows, cfg) ==> Consistent(rows, cfg, p)
    ensures forall k :: Qualifies(rows, cfg, k) ==> exists p :: p in Candidates(rows, cfg) && p.key == k
    ensures KeysDistinct(Candidates(rows, cfg))
  {
    var keys := DistinctKeys(rows, PlacementLine(cfg), KeyOf);
    var tfa := Aggregate(rows, cfg).tfa;
    KeysAggregated(rows, cfg);
    var ps := PlacementsOf(keys, tfa);
    assert ps == Candidates(rows, cfg);
    forall p | p in ps
      ensures Consistent(rows, cfg, p)
    {
      var i :| 0 <= i < |ps| && ps[i] == p;
      GroupNonEmpty(rows, PlacementLine(cfg), KeyOf, keys[i]);
      GroupSumSpec(rows, PlacementLine(cfg), KeyOf, GrossProfit, keys[i]);
    }
    forall k | Qualifies(rows, cfg, k)
      ensures exists p :: p in ps && p.key == k
    {
      assert PlacementLines(rows, cfg, k) != [];
      GroupNonEmpty(rows, PlacementLine(cfg), KeyOf, k);
      assert k in keys;
      var i :| 0 <= i < |keys| && keys[i] == k;
      assert ps[i] in ps;
    }
  }

  /**
   * The placements behind the output: each has the net gross profit of its
   * lines and qualifies, every qualifying key has one, no key twice, and
   * they are in ascending order of net gross profit.
   */
  lemma RankedPlacementsSpec(rows: seq<FactRow>, cfg: Config)
    ensures forall p :: p in RankedPlacements(rows, cfg) ==> Consistent(rows, cfg, p) && p.netGp < LossThreshold
    ensures forall k :: Qualifies(rows, cfg, k) ==> exists p :: p in RankedPlacements(rows, cfg) && p.key == k
    ensures KeysDistinct(RankedPlacements(rows, cfg))
    ensures SortedByNet(RankedPlacements(rows, cfg))
  {
    var ps := Candidates(rows, cfg);
    var qs := Qualifying(ps);
    var ranked := RankedPlacements(rows, cfg);
    CandidatesSpec(rows, cfg);
    SortKeysDistinct(qs);
    forall q
      ensures q in ranked <==> q in qs
    {
      assert q in ranked <==> q in multiset(ranked);
      assert q in qs <==> q in multiset(qs);
    }
    forall k | Qualifies(rows, cfg, k)
      ensures exists p :: p in ranked && p.key == k
    {
      var p :| p in ps && p.key == k;
      assert p in qs;
    }
  }

  /** The placement an output row reports on. */
  function RowKey(r: ConversionRow): PlacementKey
  {
    PlacementKey(r.customer, r.region)
  }

  /** Output row `i` reports on placement `i` of the ranking. */
  lemma OutputFollowsRanking(rows: seq<FactRow>, cfg: Config)
    ensures |ConversionStatus(rows, cfg)| == |RankedPlacements(rows, cfg)|
    ensures forall i :: 0 <= i < |ConversionStatus(rows, cfg)| ==>
              RowKey(ConversionStatus(rows, cfg)[i]) == RankedPlacements(rows, cfg)[i].key
              && ConversionStatus(rows, cfg)[i].placementCost == Abs(RankedPlacements(rows, cfg)[i].netGp)
  {
  }

  /**
   * Every output row is the row `Reference` computes from the fact lines
   * for its (customer, region): placement cost, current revenue and margin,
   * prior revenue and status.
   */
  lemma ConversionRowsSpec(rows: seq<FactRow>, cfg: Config)
    ensures forall i :: 0 <= i < |ConversionStatus(rows, cfg)| ==>
              ConversionStatus(rows, cfg)[i] == Reference(rows, cfg, RowKey(ConversionStatus(rows, cfg)[i]))
  {
    var ranked := RankedPlacements(rows, cfg);
    var out := ConversionStatus(rows, cfg);
    RankedPlacementsSpec(rows, cfg);
    OutputFollowsRanking(rows, cfg);
    forall i | 0 <= i < |out|
      ensures out[i] == Reference(rows, cfg, RowKey(out[i]))
    {
      assert ranked[i] in ranked;
      ReportMatchesReference(rows, cfg, ranked[i]);
    }
  }

  /**
   * A (customer, region) appears in the output exactly when its
   * current-period FASTENER TOOLS lines net strictly below -500.
   */
  lemma ConversionMembership(rows: seq<FactRow>, cfg: Config)
    ensures forall k :: Qualifies(rows, cfg, k) <==>
              exists i :: 0 <= i < |ConversionStatus(rows, cfg)| && RowKey(ConversionStatus(rows, cfg)[i]) == k
  {
    forall k
      ensures Qualifies(rows, cfg, k) <==>
              exists i :: 0 <= i < |ConversionStatus(rows, cfg)| && RowKey(ConversionStatus(rows, cfg)[i]) == k
    {
      MembershipOf(rows, cfg, k);
    }
  }

  lemma MembershipOf(rows: seq<FactRow>, cfg: Config, k: PlacementKey)
    ensures Qualifies(rows, cfg, k) <==>
              exists i :: 0 <= i < |ConversionStatus(rows, cfg)| && RowKey(ConversionStatus(rows, cfg)[i]) == k
  {
    var ranked := RankedPlacements(rows, cfg);
    var out := ConversionStatus(rows, cfg);
    RankedPlacementsSpec(rows, cfg);
    OutputFollowsRanking(rows, cfg);
    if Qualifies(rows, cfg, k) {
      var p :| p in ranked && p.key == k;
      var i :| 0 <= i < |ranked| && ranked[i] == p;
      assert RowKey(out[i]) == k;
    }
    if i :| 0 <= i < |out| && RowKey(out[i]) == k {
      assert ranked[i] in ranked;
    }
  }

  /** No (customer, region) appears twice. */
  lemma ConversionDistinct(rows: seq<FactRow>, cfg: Config)
    ensures forall i, j :: 0 <= i < j < |ConversionStatus(rows, cfg)| ==>
              RowKey(ConversionStatus(rows, cfg)[i]) != RowKey(ConversionStatus(rows, cfg)[j])
  {
    RankedPlacementsSpec(rows, cfg);
    OutputFollowsRanking(rows, cfg);
  }

  /**
   * Every placement cost exceeds 500, and the most expensive placements
   * (lowest net gross profit) come first. The bound relies on whole-number
   * amounts: with fractional amounts `ROUND(ABS(-500.40), 0)` is 500, so a
   * qualifying placement could report a cost of exactly 500.
   */
  lemma ConversionOrder(rows: seq<FactRow>, cfg: Config)
    ensures forall i :: 0 <= i < |ConversionStatus(rows, cfg)| ==>
              ConversionStatus(rows, cfg)[i].placementCost > -LossThreshold
    ensures forall i, j :: 0 <= i < j < |ConversionStatus(rows, cfg)| ==>
              ConversionStatus(rows, cfg)[i].placementCost >= ConversionStatus(rows, cfg)[j].placementCost
  {
    var ranked := RankedPlacements(rows, cfg);
    var out := ConversionStatus(rows, cfg);
    RankedPlacementsSpec(rows, cfg);
    OutputFollowsRanking(rows, cfg);
    forall i | 0 <= i < |out|
      ensures out[i].placementCost > -LossThreshold
    {
      assert ranked[i] in ranked;
    }
    forall i, j | 0 <= i < j < |out|
      ensures out[i].placementCost >= out[j].placementCost
    {
      assert ranked[i] in ranked && ranked[j] in ranked;
    }
  }

  /**
   * The revenue side is joined on customer alone: the placements of one
   * customer in two regions report the same revenue, margin and status.
   */
  lemma SameCustomerSameStatus(rows: seq<FactRow>, cfg: Config, i: nat, j: nat)
    requires i < |ConversionStatus(rows, cfg)| && j < |ConversionStatus(rows, cfg)|
    requires ConversionStatus(rows, cfg)[i].customer == ConversionStatus(rows, cfg)[j].customer
    ensures ConversionStatus(rows, cfg)[i].currentRevenue == ConversionStatus(rows, cfg)[j].currentRevenue
    ensures ConversionStatus(rows, cfg)[i].currentMarginPct == ConversionStatus(rows, cfg)[j].currentMarginPct
    ensures ConversionStatus(rows, cfg)[i].priorRevenue == ConversionStatus(rows, cfg)[j].priorRevenue
    ensures ConversionStatus(rows, cfg)[i].status == ConversionStatus(rows, cfg)[j].status
  {
    ConversionRowsSpec(rows, cfg);
  }
}
