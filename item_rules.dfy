/** The per-item rules shared by the two document-creation drivers: the
    product-code maps built from query results, and the random quantity.

    `random.randint(lo, hi)` is modelled by a seed: `RandInt(lo, hi, seed)`
    yields every value of `[lo, hi]` for some seed and nothing outside it. */
module ItemRules {
  import opened Common

  /** A row of the available-products query: a code and its computed stock
      (`int(float(...))` of the stock column is taken as already done). */
  datatype Product = Product(code: string, stock: int)

  /** `dict(zip(keys, values)).get(key)`: the value paired with the last
      occurrence of `key`, or `None`. */
  function Lookup(pairs: seq<(string, int)>, key: string): Option<int>
  {
    if pairs == [] then None
    else
      var last := pairs[|pairs| - 1];
      if last.0 == key then Some(last.1) else Lookup(pairs[..|pairs| - 1], key)
  }

  /** `Lookup` is `None` exactly when the key is absent, and otherwise gives
      the value of the key's last pair. */
  lemma {:induction false} LookupSpec(pairs: seq<(string, int)>, key: string)
    ensures Lookup(pairs, key).None? <==> forall i :: 0 <= i < |pairs| ==> pairs[i].0 != key
    ensures Lookup(pairs, key).Some? ==>
      exists i :: 0 <= i < |pairs| && pairs[i] == (key, Lookup(pairs, key).value)
        && forall j :: i < j < |pairs| ==> pairs[j].0 != key
  {
    if pairs != [] {
      var init := pairs[..|pairs| - 1];
      LookupSpec(init, key);
      if pairs[|pairs| - 1].0 != key {
        if Lookup(pairs, key).Some? {
          var i :| 0 <= i < |init| && init[i] == (key, Lookup(init, key).value)
            && forall j :: i < j < |init| ==> init[j].0 != key;
          assert pairs[i] == init[i];
        }
      }
    }
  }

  /** `stock_map`: stripped product code to stock, in query order. */
  function StockPairs(products: seq<Product>): (pairs: seq<(string, int)>)
    ensures |pairs| == |products|
    ensures forall i :: 0 <= i < |products| ==> pairs[i] == (Strip(products[i].code), products[i].stock)
  {
    seq(|products|, i requires 0 <= i < |products| => (Strip(products[i].code), products[i].stock))
  }

  /** `int(float(stock_map.get(code, 1)))`: a code with no stock row counts as stock 1. */
  function StockOf(stockMap: seq<(string, int)>, code: string): int
  {
    match Lookup(stockMap, code)
    case Some(s) => s
    case None => 1
  }

  /** Stock below 1 is raised to 1 (with a warning) before the draw. */
  function ClampStock(stock: int): (s: int)
    ensures s >= 1
    ensures stock >= 1 ==> s == stock
    ensures stock < 1 ==> s == 1
  {
    if stock < 1 then 1 else stock
  }

  /** `random.randint(lo, hi)` with the randomness as a seed: the seed
      taken modulo the width of the range, counted from `lo`. */
  function RandInt(lo: int, hi: int, seed: nat): (r: int)
    requires lo <= hi
    ensures lo <= r <= hi
  {
    if seed <= hi - lo then lo + seed else RandInt(lo, hi, seed - (hi - lo + 1))
  }

  /** Every value of `[lo, hi]` is drawn for some seed. */
  lemma RandIntReaches(lo: int, hi: int, q: int)
    requires lo <= q <= hi
    ensures RandInt(lo, hi, q - lo) == q
  {
  }

  /** The upper end of the current driver's draw: the clamped stock, capped at 20. */
  function QuantityBound(stock: int): int
  {
    var s := ClampStock(stock);
    if s >= 20 then 20 else s
  }

  /** The current driver's quantity (test_dav_creation.py, lines 469-477). */
  function Quantity(stock: int, seed: nat): (q: int)
    ensures 1 <= q <= QuantityBound(stock)
  {
    RandInt(1, QuantityBound(stock), seed)
  }

  /** The quantity lies in `[1, 20]` when the stock is at least 20, in
      `[1, stock]` below that, and is 1 when the stock is 1 or less; every
      value of that range is drawn for some seed (QuantityReaches). */
  lemma QuantityRange(stock: int, seed: nat)
    ensures stock >= 20 ==> 1 <= Quantity(stock, seed) <= 20
    ensures 1 <= stock < 20 ==> 1 <= Quantity(stock, seed) <= stock
    ensures stock <= 1 ==> Quantity(stock, seed) == 1
  {
  }

  lemma QuantityReaches(stock: int, q: int)
    requires 1 <= q <= QuantityBound(stock)
    ensures Quantity(stock, (q - 1) as nat) == q
  {
    RandIntReaches(1, QuantityBound(stock), q);
  }

  /** A product code missing from the stock map always gets quantity 1. */
  lemma MissingStockGivesOne(stockMap: seq<(string, int)>, code: string, seed: nat)
    requires forall i :: 0 <= i < |stockMap| ==> stockMap[i].0 != code
    ensures Quantity(StockOf(stockMap, code), seed) == 1
  {
    LookupSpec(stockMap, code);
  }

  /** The legacy driver's quantity (test_dav_creation_OLD.py, lines 352-358):
      drawn from `[1, stock]` after the clamp, with no cap. */
  function LegacyQuantity(stock: int, seed: nat): (q: int)
    ensures 1 <= q <= ClampStock(stock)
  {
    RandInt(1, ClampStock(stock), seed)
  }

  /** Unlike the current rule, the legacy one can draw more than 20. */
  lemma LegacyQuantityUncapped(stock: int)
    requires stock > 20
    ensures LegacyQuantity(stock, (stock - 1) as nat) == stock > 20
    ensures forall seed: nat :: Quantity(stock, seed) <= 20
  {
    RandIntReaches(1, stock, stock);
  }
}
