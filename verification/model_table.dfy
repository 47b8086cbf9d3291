/**
 * A brand-to-models table read the way the motorcycle finder block reads
 * `motoModelsByBrand`: its keys as the brand options, the entry of the chosen brand as the
 * model options.
 */
module ModelTable {
  import opened Wrappers
  import opened Sorting

  /** The table's entries, in the order its keys were written. */
  type Table = seq<(string, seq<string>)>

  /** `Object.keys(table)`. */
  function Brands(table: Table): (r: seq<string>)
    ensures |r| == |table| && forall i :: 0 <= i < |r| ==> r[i] == table[i].0
  {
    seq(|table|, i requires 0 <= i < |table| => table[i].0)
  }

  /** `table[brand]` for a key of the table; `None` for any other string. */
  function ModelsOf(table: Table, brand: string): (r: Option<seq<string>>)
    ensures r.None? <==> forall i :: 0 <= i < |table| ==> table[i].0 != brand
    ensures r.Some? ==> exists i :: 0 <= i < |table| && table[i] == (brand, r.value)
  {
    if table == [] then None
    else if table[0].0 == brand then Some(table[0].1)
    else
      var r := ModelsOf(table[1..], brand);
      assert forall i :: 1 <= i < |table| ==> table[i] == table[1..][i - 1];
      r
  }

  /** Every brand of the table is a non-empty string with at least one model. */
  predicate Complete(table: Table) {
    forall i :: 0 <= i < |table| ==> table[i].0 != "" && |table[i].1| > 0
  }

  /** `availableModels`: nothing before a brand is chosen or for a brand the table lacks. */
  function AvailableModels(table: Table, brand: string): (r: seq<string>)
    ensures brand == "" || ModelsOf(table, brand).None? ==> r == []
    ensures brand != "" && ModelsOf(table, brand).Some? ==> r == ModelsOf(table, brand).value
  {
    if brand == "" then []
    else
      match ModelsOf(table, brand)
      case None => []
      case Some(models) => models
  }

  /** `motoBrands`: every brand of the table, each once, in sorted order. */
  function SortedBrands(table: Table): (r: seq<string>)
    ensures Sorted(r) && multiset(r) == multiset(Brands(table))
  {
    Sort(Brands(table))
  }

  /** In a complete table, every brand offered in the brand selector has models to choose from. */
  lemma OfferedBrandsHaveModels(table: Table, brand: string)
    requires Complete(table)
    requires brand in SortedBrands(table)
    ensures |AvailableModels(table, brand)| > 0
  {
    assert brand in multiset(Brands(table));
    var i :| 0 <= i < |Brands(table)| && Brands(table)[i] == brand;
    assert table[i].0 == brand;
    var k :| 0 <= k < |table| && table[k] == (brand, ModelsOf(table, brand).value);
  }

  /** `years`: the thirty model years offered, from `currentYear` (read from the clock) down. */
  function Years(currentYear: int): (r: seq<int>)
    ensures |r| == 30 && r[0] == currentYear && r[29] == currentYear - 29
    ensures forall i :: 0 < i < |r| ==> r[i] == r[i - 1] - 1
  {
    seq(30, i => currentYear - i)
  }
}
