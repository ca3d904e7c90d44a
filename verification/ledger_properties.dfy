/**
 Properties of the inventory ledger that relate several calls or state what
 an operation does to the ledger as a whole: the state invariant (unique
 ids, positive prices, non-negative stocks) and its preservation, lookup
 after insertion, the insertion order of category queries, and how the total
 value moves under each operation.
 */
module LedgerProperties {
  import opened InventoryTypes
  import opened Ledger

  /* ---------------------------------------------------------------------
     addProduct
     --------------------------------------------------------------------- */

  /** A successful add keeps the ledger valid, provided the payload's stock
      (when given) is not negative: no check of `addProduct` looks at it. */
  lemma AddPreservesValid(products: seq<Product>, payload: Payload, now: int)
    requires Valid(products)
    requires payload.stock.None? || payload.stock.value >= 0
    ensures AddProduct(products, payload, now).Success? ==>
              Valid(AddProduct(products, payload, now).value.products)
  {
  }

  /** None of the checks of `addProduct` looks at the stock: a payload with a
      negative stock is stored, and the ledger then breaks its invariant. */
  lemma AddAcceptsNegativeStock()
    ensures var payload := Payload(Some(1), Some("Producto 1"), Some(100), Some(-1), Some("Hogar"));
            var r := AddProduct([], payload, 0);
            r.Success? && !Valid(r.value.products)
  {
    var payload := Payload(Some(1), Some("Producto 1"), Some(100), Some(-1), Some("Hogar"));
    var r := AddProduct([], payload, 0);
    assert r.Success?;
    assert r.value.products[0].stock == -1;
  }

  /** After a successful add, looking the id up finds the stored record, and
      it is the only record carrying that id. */
  lemma AddThenLookup(products: seq<Product>, payload: Payload, now: int)
    ensures var r := AddProduct(products, payload, now);
            r.Success? ==>
              && Lookup(r.value.products, r.value.value.id) == Some(r.value.value)
              && forall j :: 0 <= j < |r.value.products| && r.value.products[j].id == r.value.value.id ==>
                   j == |products|
  {
    var r := AddProduct(products, payload, now);
    if r.Success? {
      var ps := r.value.products;
      var p := r.value.value;
      assert forall j :: 0 <= j < |products| ==> ps[j] == products[j];
      assert ps[|products|] == p;
      var k := IndexOf(ps, p.id);
      assert k == Some(|products|);
    }
  }

  /* ---------------------------------------------------------------------
     updateStock
     --------------------------------------------------------------------- */

  /** A successful stock update keeps the ledger valid. */
  lemma UpdatePreservesValid(products: seq<Product>, id: int, delta: int, now: int)
    requires Valid(products)
    ensures UpdateStock(products, id, delta, now).Success? ==>
              Valid(UpdateStock(products, id, delta, now).value.products)
  {
  }

  /* ---------------------------------------------------------------------
     getProductsByCategory
     --------------------------------------------------------------------- */

  /** Positions of the records of `category`, in ascending order. */
  function MatchingIndices(products: seq<Product>, category: string): (idx: seq<nat>)
    ensures forall k :: 0 <= k < |idx| ==> idx[k] < |products| && products[idx[k]].category == category
    ensures forall k, l :: 0 <= k < l < |idx| ==> idx[k] < idx[l]
    ensures forall j :: 0 <= j < |products| && products[j].category == category ==> j in idx
    decreases |products|
  {
    if |products| == 0 then []
    else
      var n := |products| - 1;
      var front := MatchingIndices(products[..n], category);
      if products[n].category == category then front + [n] else front
  }

  /** The records at the given positions, in the order the positions are listed. */
  function Pick(products: seq<Product>, idx: seq<nat>): seq<Product>
    requires forall k :: 0 <= k < |idx| ==> idx[k] < |products|
  {
    seq(|idx|, k requires 0 <= k < |idx| => products[idx[k]])
  }

  /** Picking positions below `n` from a ledger or from its first `n`
      records gives the same records. */
  lemma PickFromPrefix(products: seq<Product>, n: nat, idx: seq<nat>)
    requires n <= |products|
    requires forall k :: 0 <= k < |idx| ==> idx[k] < n
    ensures Pick(products[..n], idx) == Pick(products, idx)
  {
  }

  /** Picking one more position appends that position's record. */
  lemma PickAppend(products: seq<Product>, idx: seq<nat>, n: nat)
    requires forall k :: 0 <= k < |idx| ==> idx[k] < |products|
    requires n < |products|
    ensures Pick(products, idx + [n]) == Pick(products, idx) + [products[n]]
  {
  }

  /** The category filter picks exactly the records at the matching
      positions, in ascending position order: it keeps insertion order. */
  lemma {:induction false} FilterIsOrderedSelection(products: seq<Product>, category: string)
    ensures FilterCategory(products, category) == Pick(products, MatchingIndices(products, category))
    decreases |products|
  {
    if |products| > 0 {
      var n := |products| - 1;
      var front := products[..n];
      FilterIsOrderedSelection(front, category);
      var filtered := FilterCategory(front, category);
      var idx := MatchingIndices(front, category);
      var all := FilterCategory(products, category);
      var allIdx := MatchingIndices(products, category);
      if products[n].category == category {
        assert all == filtered + [products[n]];
        assert allIdx == idx + [n];
        PickAppend(products, idx, n);
      } else {
        assert all == filtered;
        assert allIdx == idx;
      }
      PickFromPrefix(products, n, idx);
    }
  }

  /** A successful category query returns exactly the records at the
      matching positions, in ascending position order. */
  lemma GetProductsByCategoryOrdered(products: seq<Product>, category: string)
    ensures GetProductsByCategory(products, category).Success? ==>
              GetProductsByCategory(products, category).value == Pick(products, MatchingIndices(products, category))
  {
    FilterIsOrderedSelection(products, category);
  }

  /** Filtering distributes over concatenation: the records of the earlier
      part come first, each part in its own order. */
  lemma {:induction false} FilterConcat(front: seq<Product>, back: seq<Product>, category: string)
    ensures FilterCategory(front + back, category) ==
            FilterCategory(front, category) + FilterCategory(back, category)
    decreases |back|
  {
    if |back| == 0 {
      assert front + back == front;
    } else {
      var n := |back| - 1;
      assert (front + back)[..|front + back| - 1] == front + back[..n];
      FilterConcat(front, back[..n], category);
    }
  }

  /** A successful add appends the new record to the end of its category's
      listing and leaves every other category's listing as it was. */
  lemma AddThenCategoryQuery(products: seq<Product>, payload: Payload, now: int, category: string)
    ensures var r := AddProduct(products, payload, now);
            r.Success? ==>
              && (category == r.value.value.category ==>
                    GetProductsByCategory(r.value.products, category) ==
                    Success(FilterCategory(products, category) + [r.value.value]))
              && (category != r.value.value.category ==>
                    FilterCategory(r.value.products, category) == FilterCategory(products, category))
  {
  }

  /* ---------------------------------------------------------------------
     calculateTotalValue
     --------------------------------------------------------------------- */

  /** The total value is additive over concatenation. */
  lemma {:induction false} TotalValueConcat(front: seq<Product>, back: seq<Product>)
    ensures TotalValue(front + back) == TotalValue(front) + TotalValue(back)
    decreases |back|
  {
    if |back| == 0 {
      assert front + back == front;
    } else {
      var n := |back| - 1;
      assert (front + back)[..|front + back| - 1] == front + back[..n];
      TotalValueConcat(front, back[..n]);
    }
  }

  /** A ledger satisfying the invariant has a non-negative total value. */
  lemma {:induction false} TotalValueNonNegative(products: seq<Product>)
    requires PositivePrices(products) && NonNegativeStocks(products)
    ensures TotalValue(products) >= 0
    decreases |products|
  {
    if |products| > 0 {
      var n := |products| - 1;
      TotalValueNonNegative(products[..n]);
      assert products[n].price * products[n].stock >= 0;
    }
  }

  /** Replacing one record changes the total by the difference of the two
      records' values. */
  lemma {:induction false} TotalValueReplace(products: seq<Product>, i: nat, q: Product)
    requires i < |products|
    ensures TotalValue(products[i := q]) == TotalValue(products) - ProductValue(products[i]) + ProductValue(q)
    decreases |products|
  {
    var n := |products| - 1;
    var ps := products[i := q];
    if i == n {
      assert ps[..n] == products[..n];
    } else {
      assert ps[..n] == products[..n][i := q];
      TotalValueReplace(products[..n], i, q);
    }
  }

  /** A successful add raises the total by the new record's price times its stock. */
  lemma AddTotalValue(products: seq<Product>, payload: Payload, now: int)
    ensures var r := AddProduct(products, payload, now);
            r.Success? ==>
              TotalValue(r.value.products) == TotalValue(products) + r.value.value.price * r.value.value.stock
  {
  }

  /** A successful stock update moves the total by the record's price times `delta`. */
  lemma UpdateTotalValue(products: seq<Product>, id: int, delta: int, now: int)
    ensures var r := UpdateStock(products, id, delta, now);
            r.Success? ==>
              TotalValue(r.value.products) == TotalValue(products) + Lookup(products, id).value.price * delta
  {
    var r := UpdateStock(products, id, delta, now);
    if r.Success? {
      var i := IndexOf(products, id).value;
      assert r.value.products == products[i := r.value.value];
      TotalValueReplace(products, i, r.value.value);
    }
  }

  /* ---------------------------------------------------------------------
     Any sequence of calls
     --------------------------------------------------------------------- */

  /** One mutating call on the ledger, with the instant it happens at. */
  datatype Command =
    | Add(payload: Payload, at: int)
    | Update(id: int, delta: int, at: int)

  /** A command that cannot store a negative stock: an add whose payload
      stock is absent or non-negative, or any update. */
  predicate SafeCommand(c: Command) {
    c.Add? ==> c.payload.stock.None? || c.payload.stock.value >= 0
  }

  /** Runs the commands in order; a failed call raises an error that the
      caller catches, and the ledger carries on unchanged. */
  function Run(products: seq<Product>, commands: seq<Command>): seq<Product>
    decreases |commands|
  {
    if |commands| == 0 then products
    else
      var c := commands[0];
      var r := match c
        case Add(payload, at) => AddProduct(products, payload, at)
        case Update(id, delta, at) => UpdateStock(products, id, delta, at);
      Run(if r.Success? then r.value.products else products, commands[1..])
  }

  /** Starting from a valid ledger, the invariant holds after every call,
      whichever calls succeed or fail. */
  lemma {:induction false} RunPreservesValid(products: seq<Product>, commands: seq<Command>)
    requires Valid(products)
    requires forall k :: 0 <= k < |commands| ==> SafeCommand(commands[k])
    ensures Valid(Run(products, commands))
    decreases |commands|
  {
    if |commands| > 0 {
      var c := commands[0];
      assert SafeCommand(c);
      match c {
        case Add(payload, at) => AddPreservesValid(products, payload, at);
        case Update(id, delta, at) => UpdatePreservesValid(products, id, delta, at);
      }
      var r := match c
        case Add(payload, at) => AddProduct(products, payload, at)
        case Update(id, delta, at) => UpdateStock(products, id, delta, at);
      var next := if r.Success? then r.value.products else products;
      assert forall k :: 0 <= k < |commands[1..]| ==> SafeCommand(commands[1..][k]) by {
        forall k | 0 <= k < |commands[1..]|
          ensures SafeCommand(commands[1..][k])
        {
          assert commands[1..][k] == commands[k + 1];
        }
      }
      RunPreservesValid(next, commands[1..]);
    }
  }
}
