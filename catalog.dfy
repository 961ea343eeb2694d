/**
 * The database the services work on: the four tables, held as fields of
 * one object that the service operations update in place.
 */
module Catalog {
  import opened Outcomes
  import opened Entities

  /** Every stored product is keyed by its code and passes its constraints. */
  predicate ProductsValid(ps: map<Code, Product>)
  {
    KeyedProducts(ps) && forall c :: c in ps ==> ValidProduct(ps[c])
  }

  predicate RawMaterialsValid(rs: map<Code, RawMaterial>)
  {
    KeyedRawMaterials(rs) && forall c :: c in rs ==> ValidRawMaterial(rs[c])
  }

  /** Recipe lines are unique per pair, point at stored rows and have positive quantities. */
  predicate LinesValid(lines: seq<RecipeLine>, ps: map<Code, Product>, rs: map<Code, RawMaterial>)
  {
    UniquePairs(lines)
    && forall i :: 0 <= i < |lines| ==>
         lines[i].productCode in ps && lines[i].rawMaterialCode in rs && ValidRecipeLine(lines[i])
  }

  predicate ProductionsValid(prods: map<int, Production>)
  {
    forall id :: id in prods ==>
      forall i :: 0 <= i < |prods[id].items| ==> ValidProductionItem(prods[id].items[i])
  }

  /** The recipe lines `keep` accepts, in table order. */
  function Filter(lines: seq<RecipeLine>, keep: RecipeLine -> bool): (r: seq<RecipeLine>)
    ensures |r| <= |lines|
    ensures forall l :: l in r <==> l in lines && keep(l)
    decreases |lines|
  {
    if lines == [] then []
    else
      var head := if keep(lines[0]) then [lines[0]] else [];
      head + Filter(lines[1..], keep)
  }

  /** Dropping lines never breaks the unique constraint. */
  lemma {:induction false} FilterKeepsUniquePairs(lines: seq<RecipeLine>, keep: RecipeLine -> bool)
    requires UniquePairs(lines)
    ensures UniquePairs(Filter(lines, keep))
    decreases |lines|
  {
    if lines != [] {
      var tail := lines[1..];
      assert UniquePairs(tail) by {
        forall i, j | 0 <= i < j < |tail|
          ensures tail[i].productCode != tail[j].productCode
            || tail[i].rawMaterialCode != tail[j].rawMaterialCode
        {
          assert tail[i] == lines[i + 1] && tail[j] == lines[j + 1];
        }
      }
      FilterKeepsUniquePairs(tail, keep);
      var rest := Filter(tail, keep);
      if keep(lines[0]) {
        var r := [lines[0]] + rest;
        forall i, j | 0 <= i < j < |r|
          ensures r[i].productCode != r[j].productCode || r[i].rawMaterialCode != r[j].rawMaterialCode
        {
          if i == 0 {
            assert r[j] in tail;
            var k :| 0 <= k < |tail| && tail[k] == r[j];
            assert lines[k + 1] == r[j];
          } else {
            assert r[i] == rest[i - 1] && r[j] == rest[j - 1];
          }
        }
      }
    }
  }

  /** Dropping lines keeps every remaining line pointing at stored rows. */
  lemma FilterKeepsLinesValid(lines: seq<RecipeLine>, keep: RecipeLine -> bool,
                              ps: map<Code, Product>, rs: map<Code, RawMaterial>)
    requires UniquePairs(lines)
    requires forall l :: l in lines && keep(l) ==> l.productCode in ps && l.rawMaterialCode in rs && ValidRecipeLine(l)
    ensures LinesValid(Filter(lines, keep), ps, rs)
  {
    FilterKeepsUniquePairs(lines, keep);
    var r := Filter(lines, keep);
    forall i | 0 <= i < |r|
      ensures r[i].productCode in ps && r[i].rawMaterialCode in rs && ValidRecipeLine(r[i])
    {
      assert r[i] in r;
    }
  }

  /** Where the line of a pair sits, if the pair has one. */
  function FindPair(lines: seq<RecipeLine>, productCode: Code, rawMaterialCode: Code): (r: Option<nat>)
    ensures r.None? <==> !HasPair(lines, productCode, rawMaterialCode)
    ensures r.Some? ==> r.value < |lines| && lines[r.value].productCode == productCode
                        && lines[r.value].rawMaterialCode == rawMaterialCode
    decreases |lines|
  {
    if lines == [] then None
    else if lines[0].productCode == productCode && lines[0].rawMaterialCode == rawMaterialCode then Some(0)
    else
      match FindPair(lines[1..], productCode, rawMaterialCode)
      case None =>
        assert forall i :: 1 <= i < |lines| ==> lines[i] == lines[1..][i - 1];
        None
      case Some(k) => Some(k + 1)
  }

  /** Under the unique constraint the pair's line is the only one with that pair. */
  lemma FindPairUnique(lines: seq<RecipeLine>, productCode: Code, rawMaterialCode: Code, i: int)
    requires UniquePairs(lines)
    requires 0 <= i < |lines| && lines[i].productCode == productCode && lines[i].rawMaterialCode == rawMaterialCode
    ensures FindPair(lines, productCode, rawMaterialCode) == Some(i)
  {
    var k := FindPair(lines, productCode, rawMaterialCode).value;
    assert lines[k].productCode == lines[i].productCode && lines[k].rawMaterialCode == lines[i].rawMaterialCode;
  }

  /** Codes that never repeat. */
  predicate DistinctCodes(codes: seq<Code>)
  {
    forall i, j :: 0 <= i < j < |codes| ==> codes[i] != codes[j]
  }

  /** As many distinct codes as a table has keys, all of them keys, are all the keys. */
  lemma {:induction false} DistinctCodesFill(codes: seq<Code>, keys: set<Code>)
    requires DistinctCodes(codes) && |codes| == |keys|
    requires forall i :: 0 <= i < |codes| ==> codes[i] in keys
    ensures forall c :: c in keys ==> c in codes
  {
    var listed := set c | c in codes;
    DistinctCodesCard(codes);
    assert listed <= keys;
    var rest := keys - listed;
    assert keys == listed + rest && listed !! rest;
    assert |rest| == 0;
  }

  lemma {:induction false} DistinctCodesCard(codes: seq<Code>)
    requires DistinctCodes(codes)
    ensures |set c | c in codes| == |codes|
    decreases |codes|
  {
    if codes != [] {
      var tail := codes[1..];
      assert DistinctCodes(tail) by {
        forall i, j | 0 <= i < j < |tail| ensures tail[i] != tail[j] {
          assert tail[i] == codes[i + 1] && tail[j] == codes[j + 1];
        }
      }
      DistinctCodesCard(tail);
      assert (set c | c in codes) == (set c | c in tail) + {codes[0]};
      assert codes[0] !in tail by {
        forall j | 0 <= j < |tail| ensures tail[j] != codes[0] {
          assert tail[j] == codes[j + 1];
        }
      }
    }
  }

  /** `rows` is the products table in some order: each stored row once, nothing else. */
  predicate ListsProducts(rows: seq<Product>, ps: map<Code, Product>)
  {
    |rows| == |ps| && (forall i, j :: 0 <= i < j < |rows| ==> rows[i].code != rows[j].code)
    && forall i :: 0 <= i < |rows| ==> rows[i].code in ps && ps[rows[i].code] == rows[i]
  }

  predicate ListsRawMaterials(rows: seq<RawMaterial>, rs: map<Code, RawMaterial>)
  {
    |rows| == |rs| && (forall i, j :: 0 <= i < j < |rows| ==> rows[i].code != rows[j].code)
    && forall i :: 0 <= i < |rows| ==> rows[i].code in rs && rs[rows[i].code] == rows[i]
  }

  /** A listing of the products table holds every stored product. */
  lemma ListedProductsCoverTable(rows: seq<Product>, ps: map<Code, Product>, c: Code)
    requires ListsProducts(rows, ps) && c in ps
    ensures exists i :: 0 <= i < |rows| && rows[i] == ps[c]
  {
    var codes := seq(|rows|, i requires 0 <= i < |rows| => rows[i].code);
    DistinctCodesFill(codes, ps.Keys);
    var i :| 0 <= i < |codes| && codes[i] == c;
    assert rows[i] == ps[c];
  }

  lemma ListedRawMaterialsCoverTable(rows: seq<RawMaterial>, rs: map<Code, RawMaterial>, c: Code)
    requires ListsRawMaterials(rows, rs) && c in rs
    ensures exists i :: 0 <= i < |rows| && rows[i] == rs[c]
  {
    var codes := seq(|rows|, i requires 0 <= i < |rows| => rows[i].code);
    DistinctCodesFill(codes, rs.Keys);
    var i :| 0 <= i < |codes| && codes[i] == c;
    assert rows[i] == rs[c];
  }

  class Store {
    /** PRODUCTS, by code. */
    var products: map<Code, Product>
    /** RAW_MATERIALS, by code. */
    var rawMaterials: map<Code, RawMaterial>
    /** PRODUCT_RAW_MATERIALS, in table order. */
    var recipeLines: seq<RecipeLine>
    /** productions, by id. */
    var productions: map<int, Production>

    ghost predicate Valid()
      reads this
    {
      ProductsValid(products) && RawMaterialsValid(rawMaterials)
      && LinesValid(recipeLines, products, rawMaterials)
      && ProductionsValid(productions)
    }

    /** An empty database. */
    constructor ()
      ensures Valid()
      ensures products == map[] && rawMaterials == map[] && recipeLines == [] && productions == map[]
    {
      products := map[];
      rawMaterials := map[];
      recipeLines := [];
      productions := map[];
    }
  }
}
