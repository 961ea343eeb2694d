/**
 * The greedy production planner behind `getProductionSuggestions`.
 *
 * Products are visited from the most to the least valuable. For each one
 * the planner finds how many units the remaining stock allows (the
 * bottleneck over its recipe lines), books that consumption in a ledger of
 * stock already promised, and emits a suggestion. Stock itself is never
 * written.
 */
module ProductionPlanning {
  import opened Entities
  import opened ProductDto
  import opened ProductionDto

  /** `Int.MAX_VALUE`, the starting bound of the bottleneck search. */
  const IntMax: int := 0x7fff_ffff

  // ---------------------------------------------------------------------
  // Sorting: `sortedByDescending { it.value }`, which is stable.

  predicate SortedByValueDesc(ps: seq<Product>)
  {
    forall i, j :: 0 <= i < j < |ps| ==> ps[i].value >= ps[j].value
  }

  /** Puts `p` in front of the first element that is not more valuable. */
  function InsertByValue(p: Product, sorted: seq<Product>): (r: seq<Product>)
    ensures |r| == |sorted| + 1
    decreases |sorted|
  {
    if sorted == [] || p.value >= sorted[0].value then [p] + sorted
    else [sorted[0]] + InsertByValue(p, sorted[1..])
  }

  lemma {:induction false} InsertByValuePermutes(p: Product, sorted: seq<Product>)
    ensures multiset(InsertByValue(p, sorted)) == multiset(sorted) + multiset{p}
    decreases |sorted|
  {
    if !(sorted == [] || p.value >= sorted[0].value) {
      InsertByValuePermutes(p, sorted[1..]);
      assert sorted == [sorted[0]] + sorted[1..];
    }
  }

  /** Inserting keeps every value under a bound that `p` and `sorted` respect. */
  lemma {:induction false} InsertByValueBelow(p: Product, sorted: seq<Product>, bound: Amount)
    requires p.value <= bound
    requires forall i :: 0 <= i < |sorted| ==> sorted[i].value <= bound
    ensures forall i :: 0 <= i < |InsertByValue(p, sorted)| ==> InsertByValue(p, sorted)[i].value <= bound
    decreases |sorted|
  {
    if !(sorted == [] || p.value >= sorted[0].value) {
      InsertByValueBelow(p, sorted[1..], bound);
    }
  }

  lemma {:induction false} InsertByValueSorted(p: Product, sorted: seq<Product>)
    requires SortedByValueDesc(sorted)
    ensures SortedByValueDesc(InsertByValue(p, sorted))
    decreases |sorted|
  {
    if !(sorted == [] || p.value >= sorted[0].value) {
      var tail := sorted[1..];
      var rest := InsertByValue(p, tail);
      InsertByValueSorted(p, tail);
      InsertByValueBelow(p, tail, sorted[0].value);
      var r := [sorted[0]] + rest;
      forall i, j | 0 <= i < j < |r| ensures r[i].value >= r[j].value {
        assert r[j] == rest[j - 1];
        if i > 0 {
          assert r[i] == rest[i - 1];
        }
      }
    }
  }

  /** Stable sort by value, most valuable first. */
  function SortByValueDesc(ps: seq<Product>): (r: seq<Product>)
    ensures |r| == |ps|
    decreases |ps|
  {
    if ps == [] then [] else InsertByValue(ps[0], SortByValueDesc(ps[1..]))
  }

  /** The sort orders by value and is a permutation of its input. */
  lemma {:induction false} SortByValueDescCorrect(ps: seq<Product>)
    ensures SortedByValueDesc(SortByValueDesc(ps))
    ensures multiset(SortByValueDesc(ps)) == multiset(ps)
    decreases |ps|
  {
    if ps != [] {
      SortByValueDescCorrect(ps[1..]);
      InsertByValueSorted(ps[0], SortByValueDesc(ps[1..]));
      InsertByValuePermutes(ps[0], SortByValueDesc(ps[1..]));
      assert ps == [ps[0]] + ps[1..];
    }
  }

  /** The products of one value, in order. */
  function WithValue(ps: seq<Product>, v: Amount): seq<Product>
    decreases |ps|
  {
    if ps == [] then []
    else
      var head := if ps[0].value == v then [ps[0]] else [];
      head + WithValue(ps[1..], v)
  }

  lemma WithValueCons(p: Product, ps: seq<Product>, v: Amount)
    ensures WithValue([p] + ps, v) == (if p.value == v then [p] else []) + WithValue(ps, v)
  {
    assert ([p] + ps)[1..] == ps;
  }

  lemma {:induction false} InsertByValueStable(p: Product, sorted: seq<Product>, v: Amount)
    ensures WithValue(InsertByValue(p, sorted), v)
         == (if p.value == v then [p] else []) + WithValue(sorted, v)
    decreases |sorted|
  {
    if sorted == [] || p.value >= sorted[0].value {
      WithValueCons(p, sorted, v);
    } else {
      var rest := InsertByValue(p, sorted[1..]);
      InsertByValueStable(p, sorted[1..], v);
      WithValueCons(sorted[0], rest, v);
      assert sorted == [sorted[0]] + sorted[1..];
      WithValueCons(sorted[0], sorted[1..], v);
    }
  }

  /** Stability: products of equal value keep their catalog order. */
  lemma {:induction false} SortStable(ps: seq<Product>, v: Amount)
    ensures WithValue(SortByValueDesc(ps), v) == WithValue(ps, v)
    decreases |ps|
  {
    if ps != [] {
      SortStable(ps[1..], v);
      InsertByValueStable(ps[0], SortByValueDesc(ps[1..]), v);
      assert ps == [ps[0]] + ps[1..];
      WithValueCons(ps[0], ps[1..], v);
    }
  }

  // ---------------------------------------------------------------------
  // Stock lookups.

  /** `rawMaterials.associate { it.code to it.stockQuantity }`: a later entry wins. */
  function StockMap(rms: seq<RawMaterial>): (m: map<Code, Amount>)
    ensures forall c :: c in m <==> exists i :: 0 <= i < |rms| && rms[i].code == c
    ensures forall c :: c in m ==> exists i :: 0 <= i < |rms| && rms[i].code == c && m[c] == rms[i].stockQuantity
    decreases |rms|
  {
    if rms == [] then map[]
    else
      var last := rms[|rms| - 1];
      var prefix := StockMap(rms[..|rms| - 1]);
      assert forall i :: 0 <= i < |rms| - 1 ==> rms[..|rms| - 1][i] == rms[i];
      prefix[last.code := last.stockQuantity]
  }

  /** `map[code] ?: BigDecimal.ZERO`. */
  function Get(m: map<Code, Amount>, c: Code): Amount
  {
    if c in m then m[c] else 0
  }

  // ---------------------------------------------------------------------
  // The bottleneck of one product.

  function Remaining(l: RecipeLine, stock: map<Code, Amount>, used: map<Code, Amount>): Amount
  {
    Get(stock, l.rawMaterialCode) - Get(used, l.rawMaterialCode)
  }

  /** Units one line allows: none if nothing remains or the quantity is not positive, else the floor quotient. */
  function LineUnits(l: RecipeLine, stock: map<Code, Amount>, used: map<Code, Amount>): (n: int)
    ensures n >= 0
  {
    var remaining := Remaining(l, stock, used);
    if remaining <= 0 || l.quantity <= 0 then 0 else remaining / l.quantity
  }

  /** The minimum of `LineUnits` over the lines, starting from `Int.MAX_VALUE`. */
  function Bottleneck(lines: seq<RecipeLine>, stock: map<Code, Amount>, used: map<Code, Amount>): (n: int)
    ensures 0 <= n <= IntMax
    decreases |lines|
  {
    if lines == [] then IntMax
    else
      var prefix := Bottleneck(lines[..|lines| - 1], stock, used);
      var units := LineUnits(lines[|lines| - 1], stock, used);
      if prefix < units then prefix else units
  }

  /**
   * Whether a line lets `q` units be made: zero always, and a positive
   * count only if the line's quantity and the remaining stock are positive
   * and `q` units' consumption fits in what remains.
   */
  predicate Allows(l: RecipeLine, stock: map<Code, Amount>, used: map<Code, Amount>, q: int)
  {
    q == 0 || (l.quantity > 0 && Remaining(l, stock, used) > 0 && l.quantity * q <= Remaining(l, stock, used))
  }

  lemma MulDivBound(a: int, b: int, q: int)
    requires a > 0 && b > 0 && 0 <= q <= a / b
    ensures b * q <= a
  {
    assert b * q <= b * (a / b);
  }

  lemma DivLowerBound(a: int, b: int, q: int)
    requires a > 0 && b > 0 && q >= 0 && b * q <= a
    ensures q <= a / b
  {
    var d := a / b;
    assert a == b * d + a % b && a % b < b;
    assert b * (d + 1) == b * d + b;
    assert b * q < b * (d + 1);
    MulCancelStrict(b, q, d + 1);
  }

  lemma MulCancelStrict(b: int, x: int, y: int)
    requires b > 0 && b * x < b * y
    ensures x < y
  {
    if x >= y {
      MulMonotone(b, y, x);
    }
  }

  lemma MulMonotone(b: int, x: int, y: int)
    requires b > 0 && x <= y
    ensures b * x <= b * y
  {
  }

  lemma {:induction false} BottleneckBelowLines(lines: seq<RecipeLine>, stock: map<Code, Amount>, used: map<Code, Amount>)
    ensures forall i :: 0 <= i < |lines| ==> Bottleneck(lines, stock, used) <= LineUnits(lines[i], stock, used)
    decreases |lines|
  {
    if lines != [] {
      var prefix := lines[..|lines| - 1];
      BottleneckBelowLines(prefix, stock, used);
      assert forall i :: 0 <= i < |prefix| ==> prefix[i] == lines[i];
    }
  }

  /** Every line allows the bottleneck. */
  lemma BottleneckFeasible(lines: seq<RecipeLine>, stock: map<Code, Amount>, used: map<Code, Amount>)
    ensures forall l :: l in lines ==> Allows(l, stock, used, Bottleneck(lines, stock, used))
  {
    var n := Bottleneck(lines, stock, used);
    BottleneckBelowLines(lines, stock, used);
    forall l | l in lines ensures Allows(l, stock, used, n) {
      var i :| 0 <= i < |lines| && lines[i] == l;
      if n > 0 {
        MulDivBound(Remaining(l, stock, used), l.quantity, n);
      }
    }
  }

  /** No larger count up to `Int.MAX_VALUE` is allowed by every line. */
  lemma {:induction false} BottleneckMaximal(lines: seq<RecipeLine>, stock: map<Code, Amount>, used: map<Code, Amount>, q: int)
    requires 0 <= q <= IntMax
    requires forall l :: l in lines ==> Allows(l, stock, used, q)
    ensures q <= Bottleneck(lines, stock, used)
    decreases |lines|
  {
    if lines != [] {
      var prefix := lines[..|lines| - 1];
      var last := lines[|lines| - 1];
      assert forall l :: l in prefix ==> l in lines;
      BottleneckMaximal(prefix, stock, used, q);
      assert Allows(last, stock, used, q);
      if q > 0 {
        DivLowerBound(Remaining(last, stock, used), last.quantity, q);
      }
    }
  }

  /** A line that allows nothing forces the bottleneck to zero: the loop may stop there. */
  lemma BottleneckZeroAt(lines: seq<RecipeLine>, stock: map<Code, Amount>, used: map<Code, Amount>, i: int)
    requires 0 <= i < |lines| && LineUnits(lines[i], stock, used) == 0
    ensures Bottleneck(lines, stock, used) == 0
  {
    BottleneckBelowLines(lines, stock, used);
  }

  // ---------------------------------------------------------------------
  // Booking consumption in the ledger.

  /** Adds `quantity * q` to the ledger entry of each line's raw material, line by line. */
  function Commit(used: map<Code, Amount>, lines: seq<RecipeLine>, q: int): (r: map<Code, Amount>)
    decreases |lines|
  {
    if lines == [] then used
    else
      var prefix := Commit(used, lines[..|lines| - 1], q);
      var last := lines[|lines| - 1];
      prefix[last.rawMaterialCode := Get(prefix, last.rawMaterialCode) + last.quantity * q]
  }

  /** The total quantity the lines ask for one raw material, per unit of product. */
  function QuantityFor(lines: seq<RecipeLine>, m: Code): Amount
    decreases |lines|
  {
    if lines == [] then 0
    else
      var last := lines[|lines| - 1];
      QuantityFor(lines[..|lines| - 1], m) + (if last.rawMaterialCode == m then last.quantity else 0)
  }

  lemma {:induction false} CommitAdds(used: map<Code, Amount>, lines: seq<RecipeLine>, q: int, m: Code)
    ensures Get(Commit(used, lines, q), m) == Get(used, m) + QuantityFor(lines, m) * q
    decreases |lines|
  {
    if lines != [] {
      var prefix := lines[..|lines| - 1];
      var last := lines[|lines| - 1];
      CommitAdds(used, prefix, q, m);
      if last.rawMaterialCode == m {
        assert QuantityFor(lines, m) * q == QuantityFor(prefix, m) * q + last.quantity * q;
      }
    }
  }

  /** With distinct raw materials a line's own quantity is all that is asked of its material. */
  lemma {:induction false} QuantityForDistinct(lines: seq<RecipeLine>, i: int)
    requires DistinctMaterials(lines) && 0 <= i < |lines|
    ensures QuantityFor(lines, lines[i].rawMaterialCode) == lines[i].quantity
    decreases |lines|
  {
    var prefix := lines[..|lines| - 1];
    assert forall a, b :: 0 <= a < b < |prefix| ==> prefix[a] == lines[a] && prefix[b] == lines[b];
    if i < |lines| - 1 {
      assert prefix[i] == lines[i];
      QuantityForDistinct(prefix, i);
    } else {
      QuantityForAbsent(prefix, lines[i].rawMaterialCode);
    }
  }

  lemma {:induction false} QuantityForAbsent(lines: seq<RecipeLine>, m: Code)
    requires forall l :: l in lines ==> l.rawMaterialCode != m
    ensures QuantityFor(lines, m) == 0
    decreases |lines|
  {
    if lines != [] {
      var prefix := lines[..|lines| - 1];
      assert forall l :: l in prefix ==> l in lines;
      QuantityForAbsent(prefix, m);
    }
  }

  // ---------------------------------------------------------------------
  // The plan.

  datatype PlanState = PlanState(used: map<Code, Amount>, suggestions: seq<ProductionSuggestion>)

  function Suggest(p: Product, q: int): (s: ProductionSuggestion)
  {
    ProductionSuggestion(ToView(p), q, p.value * q)
  }

  /** One iteration of the planner's loop over products. */
  function Step(st: PlanState, p: Product, stock: map<Code, Amount>, associations: seq<RecipeLine>): PlanState
  {
    var lines := LinesOf(associations, p.code);
    if lines == [] then st
    else
      var q := Bottleneck(lines, stock, st.used);
      if q > 0 then PlanState(Commit(st.used, lines, q), st.suggestions + [Suggest(p, q)])
      else st
  }

  /** The planner's state after visiting `ps` in order, from an empty ledger. */
  function PlanOver(ps: seq<Product>, stock: map<Code, Amount>, associations: seq<RecipeLine>): PlanState
    decreases |ps|
  {
    if ps == [] then PlanState(map[], [])
    else Step(PlanOver(ps[..|ps| - 1], stock, associations), ps[|ps| - 1], stock, associations)
  }

  /** `suggestions.fold(ZERO) { acc, s -> acc + s.totalValue }`. */
  function SumTotals(ss: seq<ProductionSuggestion>): Amount
    decreases |ss|
  {
    if ss == [] then 0 else SumTotals(ss[..|ss| - 1]) + ss[|ss| - 1].totalValue
  }

  /** The summary `getProductionSuggestions` answers for the three table listings. */
  function Plan(products: seq<Product>, rawMaterials: seq<RawMaterial>, associations: seq<RecipeLine>): ProductionSummary
  {
    var st := PlanOver(SortByValueDesc(products), StockMap(rawMaterials), associations);
    ProductionSummary(st.suggestions, SumTotals(st.suggestions))
  }

  /** The inner loop over one product's lines, which stops at the first line allowing nothing. */
  method MaxProducible(lines: seq<RecipeLine>, stockMap: map<Code, Amount>, usedStock: map<Code, Amount>)
    returns (maxProducible: int)
    ensures maxProducible == Bottleneck(lines, stockMap, usedStock)
  {
    maxProducible := IntMax;
    var j := 0;
    while j < |lines|
      invariant 0 <= j <= |lines|
      invariant maxProducible == Bottleneck(lines[..j], stockMap, usedStock)
    {
      var association := lines[j];
      var available := Get(stockMap, association.rawMaterialCode);
      var used := Get(usedStock, association.rawMaterialCode);
      var remaining := available - used;
      assert lines[..j + 1][..j] == lines[..j];
      if remaining <= 0 || association.quantity <= 0 {
        BottleneckZeroAt(lines, stockMap, usedStock, j);
        return 0;
      }
      var producibleForThisMaterial := remaining / association.quantity;
      maxProducible := if maxProducible < producibleForThisMaterial then maxProducible else producibleForThisMaterial;
      j := j + 1;
    }
    assert lines[..|lines|] == lines;
  }

  /** The loop that books `maxProducible` units of every line in the ledger. */
  method BookUsage(usedStock: map<Code, Amount>, lines: seq<RecipeLine>, maxProducible: int)
    returns (booked: map<Code, Amount>)
    ensures booked == Commit(usedStock, lines, maxProducible)
  {
    booked := usedStock;
    var i := 0;
    while i < |lines|
      invariant 0 <= i <= |lines|
      invariant booked == Commit(usedStock, lines[..i], maxProducible)
    {
      var association := lines[i];
      assert lines[..i + 1][..i] == lines[..i];
      var currentUsed := Get(booked, association.rawMaterialCode);
      booked := booked[association.rawMaterialCode := currentUsed + association.quantity * maxProducible];
      i := i + 1;
    }
    assert lines[..|lines|] == lines;
  }

  /** The closing fold over the suggestions. */
  method TotalValue(suggestions: seq<ProductionSuggestion>) returns (totalValue: Amount)
    ensures totalValue == SumTotals(suggestions)
  {
    totalValue := 0;
    var n := 0;
    while n < |suggestions|
      invariant 0 <= n <= |suggestions|
      invariant totalValue == SumTotals(suggestions[..n])
    {
      assert suggestions[..n + 1][..n] == suggestions[..n];
      totalValue := totalValue + suggestions[n].totalValue;
      n := n + 1;
    }
    assert suggestions[..|suggestions|] == suggestions;
  }

  /**
   * `getProductionSuggestions`: `products`, `rawMaterials` and
   * `associations` are what `listAll()` and `findAllWithLock()` return.
   */
  method GetProductionSuggestions(products: seq<Product>, rawMaterials: seq<RawMaterial>, associations: seq<RecipeLine>)
    returns (summary: ProductionSummary)
    ensures summary == Plan(products, rawMaterials, associations)
  {
    var sorted := SortByValueDesc(products);
    var stockMap := StockMap(rawMaterials);
    var suggestions: seq<ProductionSuggestion> := [];
    var usedStock: map<Code, Amount> := map[];
    var k := 0;
    while k < |sorted|
      invariant 0 <= k <= |sorted|
      invariant PlanOver(sorted[..k], stockMap, associations) == PlanState(usedStock, suggestions)
    {
      var product := sorted[k];
      assert sorted[..k + 1][..k] == sorted[..k];
      var productAssociations := LinesOf(associations, product.code);
      if productAssociations != [] {
        var maxProducible := MaxProducible(productAssociations, stockMap, usedStock);
        if maxProducible > 0 {
          usedStock := BookUsage(usedStock, productAssociations, maxProducible);
          suggestions := suggestions + [Suggest(product, maxProducible)];
        }
      }
      k := k + 1;
    }
    assert sorted[..|sorted|] == sorted;
    var totalValue := TotalValue(suggestions);
    summary := ProductionSummary(suggestions, totalValue);
  }

  // ---------------------------------------------------------------------
  // What the plan promises.

  /** What every emitted suggestion satisfies. */
  predicate WellFormedSuggestion(s: ProductionSuggestion, associations: seq<RecipeLine>)
  {
    0 < s.producibleQuantity <= IntMax
    && s.totalValue == s.product.value * s.producibleQuantity
    && LinesOf(associations, s.product.code) != []
  }

  /** The suggestion is about one of `ps`. */
  predicate FromCatalog(s: ProductionSuggestion, ps: seq<Product>)
  {
    exists i :: 0 <= i < |ps| && s.product == ToView(ps[i])
  }

  lemma {:induction false} PlanOverSuggestions(ps: seq<Product>, stock: map<Code, Amount>, associations: seq<RecipeLine>)
    ensures forall s :: s in PlanOver(ps, stock, associations).suggestions ==>
      WellFormedSuggestion(s, associations) && FromCatalog(s, ps)
    decreases |ps|
  {
    if ps != [] {
      var prefix := ps[..|ps| - 1];
      var last := ps[|ps| - 1];
      PlanOverSuggestions(prefix, stock, associations);
      var before := PlanOver(prefix, stock, associations).suggestions;
      forall s | s in PlanOver(ps, stock, associations).suggestions
        ensures WellFormedSuggestion(s, associations) && FromCatalog(s, ps)
      {
        if s in before {
          var i :| 0 <= i < |prefix| && s.product == ToView(prefix[i]);
          assert prefix[i] == ps[i];
        } else {
          assert s.product == ToView(ps[|ps| - 1]);
        }
      }
    }
  }

  /** One step appends at most one suggestion, about the visited product. */
  lemma StepAppends(st: PlanState, p: Product, stock: map<Code, Amount>, associations: seq<RecipeLine>)
    ensures var ss := Step(st, p, stock, associations).suggestions;
      ss == st.suggestions || (ss == st.suggestions + [ss[|ss| - 1]] && ss[|ss| - 1].product == ToView(p))
  {
  }

  /** Suggestions from the most to the least valuable product. */
  predicate OrderedByValue(ss: seq<ProductionSuggestion>)
  {
    forall i, j :: 0 <= i < j < |ss| ==> ss[i].product.value >= ss[j].product.value
  }

  lemma {:induction false} PlanOverOrdered(ps: seq<Product>, stock: map<Code, Amount>, associations: seq<RecipeLine>)
    requires SortedByValueDesc(ps)
    ensures OrderedByValue(PlanOver(ps, stock, associations).suggestions)
    decreases |ps|
  {
    if ps != [] {
      var prefix := ps[..|ps| - 1];
      var last := ps[|ps| - 1];
      assert SortedByValueDesc(prefix) by {
        assert forall i :: 0 <= i < |prefix| ==> prefix[i] == ps[i];
      }
      PlanOverOrdered(prefix, stock, associations);
      PlanOverSuggestions(prefix, stock, associations);
      var st := PlanOver(prefix, stock, associations);
      var before := st.suggestions;
      StepAppends(st, last, stock, associations);
      var ss := Step(st, last, stock, associations).suggestions;
      assert PlanOver(ps, stock, associations).suggestions == ss;
      if ss != before {
        assert ss == before + [ss[|ss| - 1]] && ss[|ss| - 1].product == ToView(last);
        forall i, j | 0 <= i < j < |ss| ensures ss[i].product.value >= ss[j].product.value {
          if j == |ss| - 1 {
            assert ss[i] == before[i];
            assert before[i] in before;
            assert FromCatalog(before[i], prefix);
            var k :| 0 <= k < |prefix| && before[i].product == ToView(prefix[k]);
            assert prefix[k] == ps[k];
            assert ps[k].value >= ps[|ps| - 1].value;
            assert ss[i].product.value == ps[k].value;
            assert ss[j].product.value == last.value;
          } else {
            assert ss[i] == before[i] && ss[j] == before[j];
            assert before[i].product.value >= before[j].product.value;
          }
        }
      }
    }
  }

  /**
   * Suggestions come out from the most to the least valuable product; each
   * names a catalog product that has recipe lines, a positive count, and a
   * total equal to the unit value times that count. With no suggestions the
   * total is zero.
   */
  lemma PlanSuggestions(products: seq<Product>, rawMaterials: seq<RawMaterial>, associations: seq<RecipeLine>)
    ensures OrderedByValue(Plan(products, rawMaterials, associations).suggestions)
    ensures forall s :: s in Plan(products, rawMaterials, associations).suggestions ==>
      WellFormedSuggestion(s, associations) && FromCatalog(s, products)
    ensures Plan(products, rawMaterials, associations).totalValue
         == SumTotals(Plan(products, rawMaterials, associations).suggestions)
    ensures Plan(products, rawMaterials, associations).suggestions == []
         ==> Plan(products, rawMaterials, associations).totalValue == 0
  {
    var sorted := SortByValueDesc(products);
    var ss := PlanOver(sorted, StockMap(rawMaterials), associations).suggestions;
    SortByValueDescCorrect(products);
    PlanOverOrdered(sorted, StockMap(rawMaterials), associations);
    PlanOverSuggestions(sorted, StockMap(rawMaterials), associations);
    forall s | s in ss
      ensures FromCatalog(s, products)
    {
      assert FromCatalog(s, sorted);
      var k :| 0 <= k < |sorted| && s.product == ToView(sorted[k]);
      assert sorted[k] in multiset(products) by {
        assert sorted[k] in multiset(sorted);
      }
      var i :| 0 <= i < |products| && products[i] == sorted[k];
    }
  }

  /** A product without recipe lines never appears in the plan. */
  lemma PlanSkipsProductsWithoutLines(products: seq<Product>, rawMaterials: seq<RawMaterial>,
                                      associations: seq<RecipeLine>, p: Product)
    requires LinesOf(associations, p.code) == []
    ensures forall s :: s in Plan(products, rawMaterials, associations).suggestions ==> s.product.code != p.code
  {
    PlanSuggestions(products, rawMaterials, associations);
  }

  /** Stock of `m` the suggestions consume, summed over the suggestions. */
  function Consumption(ss: seq<ProductionSuggestion>, associations: seq<RecipeLine>, m: Code): Amount
    decreases |ss|
  {
    if ss == [] then 0
    else
      var last := ss[|ss| - 1];
      Consumption(ss[..|ss| - 1], associations, m)
        + QuantityFor(LinesOf(associations, last.product.code), m) * last.producibleQuantity
  }

  /** The ledger holds exactly what the emitted suggestions consume. */
  lemma {:induction false} PlanOverLedger(ps: seq<Product>, stock: map<Code, Amount>, associations: seq<RecipeLine>, m: Code)
    ensures var st := PlanOver(ps, stock, associations);
      Get(st.used, m) == Consumption(st.suggestions, associations, m)
    decreases |ps|
  {
    if ps != [] {
      var prefix := ps[..|ps| - 1];
      var last := ps[|ps| - 1];
      PlanOverLedger(prefix, stock, associations, m);
      var st := PlanOver(prefix, stock, associations);
      var lines := LinesOf(associations, last.code);
      if lines != [] {
        var q := Bottleneck(lines, stock, st.used);
        if q > 0 {
          CommitAdds(st.used, lines, q, m);
          var ss := st.suggestions + [Suggest(last, q)];
          assert ss[..|ss| - 1] == st.suggestions;
        }
      }
    }
  }

  /** Booking the bottleneck of lines with distinct materials keeps a ledger entry within its stock. */
  lemma CommitWithinStock(lines: seq<RecipeLine>, stock: map<Code, Amount>, used: map<Code, Amount>, m: Code)
    requires DistinctMaterials(lines)
    requires 0 <= Get(used, m) <= Get(stock, m)
    ensures var q := Bottleneck(lines, stock, used);
      0 <= Get(Commit(used, lines, q), m) <= Get(stock, m)
  {
    var q := Bottleneck(lines, stock, used);
    CommitAdds(used, lines, q, m);
    if i :| 0 <= i < |lines| && lines[i].rawMaterialCode == m {
      QuantityForDistinct(lines, i);
      BottleneckFeasible(lines, stock, used);
      assert lines[i] in lines;
      assert Allows(lines[i], stock, used, q);
    } else {
      QuantityForAbsent(lines, m);
    }
  }

  /** One planner step keeps the ledger entry of `m` within its stock. */
  lemma StepWithinStock(st: PlanState, p: Product, stock: map<Code, Amount>, associations: seq<RecipeLine>, m: Code)
    requires UniquePairs(associations)
    requires 0 <= Get(st.used, m) <= Get(stock, m)
    ensures 0 <= Get(Step(st, p, stock, associations).used, m) <= Get(stock, m)
  {
    var lines := LinesOf(associations, p.code);
    if lines != [] && Bottleneck(lines, stock, st.used) > 0 {
      LinesOfDistinctMaterials(associations, p.code);
      CommitWithinStock(lines, stock, st.used, m);
    }
  }

  /** The ledger never books more of a material than its stock, nor a negative amount. */
  lemma {:induction false} PlanOverWithinStock(ps: seq<Product>, stock: map<Code, Amount>, associations: seq<RecipeLine>, m: Code)
    requires forall c :: c in stock ==> stock[c] >= 0
    requires UniquePairs(associations)
    ensures 0 <= Get(PlanOver(ps, stock, associations).used, m) <= Get(stock, m)
    decreases |ps|
  {
    if ps != [] {
      PlanOverWithinStock(ps[..|ps| - 1], stock, associations, m);
      StepWithinStock(PlanOver(ps[..|ps| - 1], stock, associations), ps[|ps| - 1], stock, associations, m);
    }
  }

  /**
   * Conservation: for every raw material, what all suggestions together
   * consume lies between zero and the stock on hand, provided stock is
   * non-negative and (product, raw material) pairs are unique.
   */
  lemma PlanWithinStock(products: seq<Product>, rawMaterials: seq<RawMaterial>, associations: seq<RecipeLine>, m: Code)
    requires forall i :: 0 <= i < |rawMaterials| ==> rawMaterials[i].stockQuantity >= 0
    requires UniquePairs(associations)
    ensures 0 <= Consumption(Plan(products, rawMaterials, associations).suggestions, associations, m)
    ensures Consumption(Plan(products, rawMaterials, associations).suggestions, associations, m)
         <= Get(StockMap(rawMaterials), m)
  {
    var sorted := SortByValueDesc(products);
    var stock := StockMap(rawMaterials);
    PlanOverLedger(sorted, stock, associations, m);
    PlanOverWithinStock(sorted, stock, associations, m);
  }
}
