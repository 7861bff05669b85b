/** The cart handlers: adding a line, changing its quantity, removing it, and
    the bulk purchase that checks and lowers the stock of every selected line
    before deleting the lines. A request without an authenticated user
    (`user` is None) is answered with Unauthorized before anything else. */
module CartController {
  import opened Common
  import opened Records
  import opened Store

  // ---- Single lines ----

  /** A line is created for an existing product with a positive quantity; it
      records the product's current price. The schema's `min: 0` on the price
      makes the save fail (ServerError) for a product priced below zero. */
  method CreateCartItem(db: Database, user: Option<Id>, product: Option<Id>, quantity: Option<int>)
    returns (res: Response, created: Option<CartRow>)
    requires db.Valid()
    modifies db
    ensures db.Valid()
    ensures user.None? ==> res == Unauthorized
    ensures user.Some? && (product.None? || quantity.None? || quantity.value < 1) ==> res == BadRequest
    ensures user.Some? && product.Some? && quantity.Some? && quantity.value >= 1 ==>
      match ProductIndex(old(db.products), product.value)
      case None => res == NotFound
      case Some(k) =>
        && (old(db.products)[k].price < 0 ==> res == ServerError)
        && (old(db.products)[k].price >= 0 ==>
              && res == Created
              && created == Some(CartRow(old(db.nextId), user.value, product.value, quantity.value, old(db.products)[k].price))
              && db.State() == old(db.State()).(carts := old(db.carts) + [created.value], nextId := old(db.nextId) + 1))
    ensures res != Created ==> db.State() == old(db.State()) && created.None?
  {
    created := None;
    if user.None? {
      return Unauthorized, None;
    }
    if product.None? || quantity.None? || quantity.value < 1 {
      return BadRequest, None;
    }
    var k := ProductIndex(db.products, product.value);
    if k.None? {
      return NotFound, None;
    }
    var price := db.products[k.value].price;
    if price < 0 {
      return ServerError, None;
    }
    var row := CartRow(db.nextId, user.value, product.value, quantity.value, price);
    ValidAfterCartAppend(db.State(), row);
    db.carts, db.nextId := db.carts + [row], db.nextId + 1;
    res, created := Created, Some(row);
  }

  /** Only the quantity of the caller's own line changes; a quantity below one
      is refused before the lookup. */
  method UpdateCartItem(db: Database, user: Option<Id>, id: Id, quantity: Option<int>) returns (res: Response)
    requires db.Valid()
    modifies db
    ensures db.Valid()
    ensures user.None? ==> res == Unauthorized
    ensures user.Some? && (quantity.None? || quantity.value < 1) ==> res == BadRequest
    ensures user.Some? && quantity.Some? && quantity.value >= 1 ==>
      match CartRowIndex(old(db.carts), id, user.value)
      case None => res == NotFound
      case Some(k) =>
        && res == Ok
        && db.State() == old(db.State()).(carts := old(db.carts)[k := old(db.carts)[k].(quantity := quantity.value)])
    ensures res != Ok ==> db.State() == old(db.State())
  {
    if user.None? {
      return Unauthorized;
    }
    if quantity.None? || quantity.value < 1 {
      return BadRequest;
    }
    var k := CartRowIndex(db.carts, id, user.value);
    if k.None? {
      return NotFound;
    }
    ValidAfterCartWrite(db.State(), k.value, db.carts[k.value].(quantity := quantity.value));
    db.carts := db.carts[k.value := db.carts[k.value].(quantity := quantity.value)];
    res := Ok;
  }

  /** Removes the caller's own line and nothing else. */
  method DeleteCartItem(db: Database, user: Option<Id>, id: Id) returns (res: Response)
    requires db.Valid()
    modifies db
    ensures db.Valid()
    ensures user.None? ==> res == Unauthorized
    ensures user.Some? ==>
      match CartRowIndex(old(db.carts), id, user.value)
      case None => res == NotFound
      case Some(k) => res == Ok && db.State() == old(db.State()).(carts := RemoveAt(old(db.carts), k))
    ensures res != Ok ==> db.State() == old(db.State())
  {
    if user.None? {
      return Unauthorized;
    }
    var k := CartRowIndex(db.carts, id, user.value);
    if k.None? {
      return NotFound;
    }
    ValidAfterCartRemove(db.State(), k.value);
    db.carts := RemoveAt(db.carts, k.value);
    res := Ok;
  }

  // ---- The bulk purchase ----

  /** `Cart.find({ _id: { $in: ids }, user })`, in natural order. */
  function Selected(cs: seq<CartRow>, ids: seq<Id>, user: Id): seq<CartRow> {
    Filter(cs, (r: CartRow) => r.id in ids && r.user == user)
  }

  /** What `Cart.deleteMany({ _id: { $in: ids }, user })` leaves. */
  function Unselected(cs: seq<CartRow>, ids: seq<Id>, user: Id): seq<CartRow> {
    Filter(cs, (r: CartRow) => !(r.id in ids && r.user == user))
  }

  /** The outcome of the stock check over the selected lines, line by line in
      order: a line whose product is gone makes the populated product null and
      the check throw, a line asking for more than the stock stops the request. */
  datatype StockVerdict = StockOk | MissingProduct | Insufficient

  function StockCheck(rows: seq<CartRow>, ps: seq<Product>): StockVerdict {
    if |rows| == 0 then StockOk
    else
      match ProductIndex(ps, rows[0].product)
      case None => MissingProduct
      case Some(k) => if ps[k].quantity < rows[0].quantity then Insufficient else StockCheck(rows[1..], ps)
  }

  /** Every line's product exists and holds at least the line's quantity. */
  ghost predicate EachLineInStock(rows: seq<CartRow>, ps: seq<Product>) {
    forall i :: 0 <= i < |rows| ==>
      ProductIndex(ps, rows[i].product).Some? && ps[ProductIndex(ps, rows[i].product).value].quantity >= rows[i].quantity
  }

  /** The check passes exactly when every line on its own is in stock. */
  lemma {:induction false} StockCheckOkIff(rows: seq<CartRow>, ps: seq<Product>)
    ensures StockCheck(rows, ps) == StockOk <==> EachLineInStock(rows, ps)
  {
    if |rows| > 0 {
      StockCheckOkIff(rows[1..], ps);
      assert forall i :: 1 <= i < |rows| ==> rows[i] == rows[1..][i - 1];
      if EachLineInStock(rows[1..], ps) && ProductIndex(ps, rows[0].product).Some?
        && ps[ProductIndex(ps, rows[0].product).value].quantity >= rows[0].quantity
      {
        assert EachLineInStock(rows, ps) by {
          forall i | 0 <= i < |rows|
            ensures ProductIndex(ps, rows[i].product).Some? && ps[ProductIndex(ps, rows[i].product).value].quantity >= rows[i].quantity
          {
            if i > 0 {
              assert rows[i] == rows[1..][i - 1];
            }
          }
        }
      }
    }
  }

  /** The quantity of product `pid` that the lines ask for, in total. */
  function SumQty(rows: seq<CartRow>, pid: Id): int {
    if |rows| == 0 then 0
    else SumQty(rows[..|rows| - 1], pid) + (if rows[|rows| - 1].product == pid then rows[|rows| - 1].quantity else 0)
  }

  /** The products after one `$inc: { quantity: -line.quantity }` per line, in
      line order; an update of a product that is gone does nothing. */
  function ApplyDecrements(ps: seq<Product>, rows: seq<CartRow>): (r: seq<Product>)
    ensures |r| == |ps|
  {
    if |rows| == 0 then ps
    else
      var prev := ApplyDecrements(ps, rows[..|rows| - 1]);
      var last := rows[|rows| - 1];
      match ProductIndex(prev, last.product)
      case None => prev
      case Some(k) => prev[k := prev[k].(quantity := prev[k].quantity - last.quantity)]
  }

  /** The stock updates touch quantities only. */
  lemma {:induction false} DecrementsKeepIds(ps: seq<Product>, rows: seq<CartRow>)
    ensures forall k :: 0 <= k < |ps| ==> ApplyDecrements(ps, rows)[k].id == ps[k].id
  {
    if |rows| > 0 {
      DecrementsKeepIds(ps, rows[..|rows| - 1]);
    }
  }

  /** Each product loses exactly the total quantity the lines ask of it. */
  lemma {:induction false} DecrementsAt(ps: seq<Product>, rows: seq<CartRow>, k: nat)
    requires UniqueProductIds(ps) && k < |ps|
    ensures ApplyDecrements(ps, rows)[k] == ps[k].(quantity := ps[k].quantity - SumQty(rows, ps[k].id))
  {
    DecrementsKeepIds(ps, rows);
    if |rows| > 0 {
      var init := rows[..|rows| - 1];
      var last := rows[|rows| - 1];
      var prev := ApplyDecrements(ps, init);
      DecrementsAt(ps, init, k);
      DecrementsKeepIds(ps, init);
      assert UniqueProductIds(prev);
      match ProductIndex(prev, last.product)
      case None =>
        assert ((p: Product) => p.id == last.product)(prev[k]) == false;
      case Some(m) =>
        if m != k {
          assert prev[m].id != prev[k].id;
        }
    }
  }

  /** The stock check, line by line in order. */
  method CheckStock(rows: seq<CartRow>, ps: seq<Product>) returns (v: StockVerdict)
    ensures v == StockCheck(rows, ps)
  {
    var i := 0;
    while i < |rows|
      invariant 0 <= i <= |rows|
      invariant StockCheck(rows, ps) == StockCheck(rows[i..], ps)
    {
      var k := ProductIndex(ps, rows[i].product);
      if k.None? {
        return MissingProduct;
      }
      if ps[k.value].quantity < rows[i].quantity {
        return Insufficient;
      }
      assert rows[i..][1..] == rows[i + 1..];
      i := i + 1;
    }
    return StockOk;
  }

  /** The stock updates, one line at a time. */
  method DecrementStock(ps: seq<Product>, rows: seq<CartRow>) returns (r: seq<Product>)
    ensures r == ApplyDecrements(ps, rows)
  {
    r := ps;
    var i := 0;
    while i < |rows|
      invariant 0 <= i <= |rows|
      invariant r == ApplyDecrements(ps, rows[..i])
    {
      assert rows[..i + 1][..i] == rows[..i];
      var k := ProductIndex(r, rows[i].product);
      if k.Some? {
        r := r[k.value := r[k.value].(quantity := r[k.value].quantity - rows[i].quantity)];
      }
      i := i + 1;
    }
    assert rows[..|rows|] == rows;
  }

  /** Buys the caller's selected lines: every id must name one of the
      caller's lines (a duplicate or foreign id makes the count differ), every
      line must be in stock, then each product loses the quantities asked of
      it and the selected lines are deleted. */
  method BulkDeleteAndUpdate(db: Database, user: Option<Id>, itemIds: Option<seq<Id>>)
    returns (res: Response, bought: seq<CartRow>)
    requires db.Valid()
    modifies db
    ensures db.Valid()
    ensures user.None? ==> res == Unauthorized
    ensures user.Some? && (itemIds.None? || |itemIds.value| == 0) ==> res == BadRequest
    ensures user.Some? && itemIds.Some? && |itemIds.value| > 0 ==>
      var found := Selected(old(db.carts), itemIds.value, user.value);
      && (|found| != |itemIds.value| ==> res == NotFound)
      && (|found| == |itemIds.value| ==>
            match StockCheck(found, old(db.products))
            case MissingProduct => res == ServerError
            case Insufficient => res == BadRequest
            case StockOk =>
              && res == Ok
              && bought == found
              && db.State() == old(db.State()).(
                   products := ApplyDecrements(old(db.products), found),
                   carts := Unselected(old(db.carts), itemIds.value, user.value)))
    ensures res != Ok ==> db.State() == old(db.State())
  {
    bought := [];
    if user.None? {
      return Unauthorized, [];
    }
    if itemIds.None? || |itemIds.value| == 0 {
      return BadRequest, [];
    }
    var ids, u := itemIds.value, user.value;
    var found := Selected(db.carts, ids, u);
    if |found| != |ids| {
      return NotFound, [];
    }
    var verdict := CheckStock(found, db.products);
    if verdict == MissingProduct {
      return ServerError, [];
    }
    if verdict == Insufficient {
      return BadRequest, [];
    }
    var ps := DecrementStock(db.products, found);
    DecrementsKeepIds(db.products, found);
    ValidAfterProductsWrite(db.State(), ps);
    ValidAfterCartFilter(db.State().(products := ps), (r: CartRow) => !(r.id in ids && r.user == u));
    db.products := ps;
    db.carts := Unselected(db.carts, ids, u);
    res, bought := Ok, found;
  }

  // ---- What the stock check does and does not guarantee ----

  /** Lines that name different products, each in stock on its own, leave
      every affected stock at zero or above. */
  lemma DistinctProductsKeepStock(rows: seq<CartRow>, ps: seq<Product>, k: nat)
    requires UniqueProductIds(ps) && k < |ps| && ps[k].quantity >= 0
    requires forall i, j :: 0 <= i < j < |rows| ==> rows[i].product != rows[j].product
    requires StockCheck(rows, ps) == StockOk
    ensures ApplyDecrements(ps, rows)[k].quantity >= 0
  {
    DecrementsAt(ps, rows, k);
    StockCheckOkIff(rows, ps);
    ProductIndexOfOwnId(ps, k);
    SumQtyDistinct(rows, ps[k].id, ps[k].quantity);
  }

  /** With distinct products, a product's total demand is that of its one
      line, so it is bounded by any bound every such line respects. */
  lemma {:induction false} SumQtyDistinct(rows: seq<CartRow>, pid: Id, bound: int)
    requires bound >= 0
    requires forall i, j :: 0 <= i < j < |rows| ==> rows[i].product != rows[j].product
    requires forall i :: 0 <= i < |rows| && rows[i].product == pid ==> rows[i].quantity <= bound
    ensures SumQty(rows, pid) <= bound
    ensures (forall i :: 0 <= i < |rows| ==> rows[i].product != pid) ==> SumQty(rows, pid) == 0
  {
    if |rows| > 0 {
      var init := rows[..|rows| - 1];
      assert forall i :: 0 <= i < |init| ==> init[i] == rows[i];
      SumQtyDistinct(init, pid, bound);
      if rows[|rows| - 1].product == pid {
        assert forall i :: 0 <= i < |init| ==> init[i].product != pid;
      }
    }
  }

  /** Two lines of one product, each within the stock of 3 but together
      asking for 4, pass the check and drive the stock to -1: the check
      compares each line with the stock on its own. */
  lemma SameProductTwiceOverdraws()
    ensures var ps := [Product(0, "bench", "flat bench", "Equipment", "New", 3, 100, "none", "uploads/b.png")];
      var rows := [CartRow(1, 7, 0, 2, 100), CartRow(2, 7, 0, 2, 100)];
      && StockCheck(rows, ps) == StockOk
      && ApplyDecrements(ps, rows)[0].quantity == -1
  {
    var ps := [Product(0, "bench", "flat bench", "Equipment", "New", 3, 100, "none", "uploads/b.png")];
    var rows := [CartRow(1, 7, 0, 2, 100), CartRow(2, 7, 0, 2, 100)];
    assert ProductIndex(ps, 0) == Some(0) by {
      FindFirstIs(ps, (p: Product) => p.id == 0, 0);
    }
    assert rows[1..][1..] == [];
    assert StockCheck(rows, ps) == StockOk;
    DecrementsAt(ps, rows, 0);
    assert rows[..1][..0] == [];
    assert SumQty(rows, 0) == 4;
  }

  // ---- The count check on the requested ids ----

  /** The distinct values of a list of ids. */
  function IdsIn(s: seq<Id>): set<Id> {
    if |s| == 0 then {} else {s[0]} + IdsIn(s[1..])
  }

  /** The identifiers of some cart lines. */
  function RowIds(rows: seq<CartRow>): set<Id> {
    if |rows| == 0 then {} else {rows[0].id} + RowIds(rows[1..])
  }

  lemma {:induction false} IdsInMembers(s: seq<Id>, x: Id)
    ensures x in IdsIn(s) <==> x in s
  {
    if |s| > 0 {
      IdsInMembers(s[1..], x);
      assert s == [s[0]] + s[1..];
    }
  }

  /** A list has at most as many distinct values as entries, and fewer when
      some value repeats. */
  lemma {:induction false} IdsInSize(s: seq<Id>)
    ensures |IdsIn(s)| <= |s|
    ensures (forall i, j :: 0 <= i < j < |s| ==> s[i] != s[j]) ==> |IdsIn(s)| == |s|
  {
    if |s| > 0 {
      IdsInSize(s[1..]);
      IdsInMembers(s[1..], s[0]);
      if forall i, j :: 0 <= i < j < |s| ==> s[i] != s[j] {
        assert forall i, j :: 0 <= i < j < |s[1..]| ==> s[1..][i] == s[i + 1] && s[1..][j] == s[j + 1];
        assert s[0] !in s[1..];
      }
    }
  }

  lemma {:induction false} DuplicateShrinks(s: seq<Id>, i: nat, j: nat)
    requires i < j < |s| && s[i] == s[j]
    ensures |IdsIn(s)| < |s|
  {
    IdsInSize(s[1..]);
    if i == 0 {
      assert s[1..][j - 1] == s[0];
      IdsInMembers(s[1..], s[0]);
    } else {
      DuplicateShrinks(s[1..], i - 1, j - 1);
    }
  }

  lemma {:induction false} RowIdsMembers(rows: seq<CartRow>, x: Id)
    ensures x in RowIds(rows) <==> exists j :: 0 <= j < |rows| && rows[j].id == x
  {
    if |rows| > 0 {
      RowIdsMembers(rows[1..], x);
      if x != rows[0].id && x !in RowIds(rows[1..]) {
        assert forall j :: 1 <= j < |rows| ==> rows[j] == rows[1..][j - 1];
      }
      if x in RowIds(rows[1..]) {
        var j :| 0 <= j < |rows[1..]| && rows[1..][j].id == x;
        assert rows[j + 1].id == x;
      }
    }
  }

  /** Lines with distinct identifiers have as many identifiers as lines. */
  lemma {:induction false} RowIdsSize(rows: seq<CartRow>)
    requires UniqueCartIds(rows)
    ensures |RowIds(rows)| == |rows|
  {
    if |rows| > 0 {
      var rest := rows[1..];
      assert UniqueCartIds(rest) by {
        assert forall i :: 0 <= i < |rest| ==> rest[i] == rows[i + 1];
      }
      RowIdsSize(rest);
      RowIdsMembers(rest, rows[0].id);
    }
  }

  lemma SubsetSize(a: set<Id>, b: set<Id>)
    requires a <= b
    ensures |a| <= |b|
    decreases |b|
  {
    if a != {} {
      var x :| x in a;
      SubsetSize(a - {x}, b - {x});
    }
  }

  /** The count check of BulkDeleteAndUpdate is exact: as many lines are
      found as ids were sent precisely when the ids are pairwise distinct
      and each names one of the caller's lines. So a repeated id, an unknown
      id or another user's line always ends in NotFound. */
  lemma CountCheckIsExact(cs: seq<CartRow>, ids: seq<Id>, user: Id, bound: nat)
    requires CartIdsBelow(cs, bound) && UniqueCartIds(cs)
    ensures |Selected(cs, ids, user)| == |ids| <==>
      && (forall i, j :: 0 <= i < j < |ids| ==> ids[i] != ids[j])
      && (forall i :: 0 <= i < |ids| ==> CartRowIndex(cs, ids[i], user).Some?)
  {
    var p := (r: CartRow) => r.id in ids && r.user == user;
    var found := Selected(cs, ids, user);
    CartsAfterFilter(cs, p, bound);
    RowIdsSize(found);
    IdsInSize(ids);
    assert RowIds(found) <= IdsIn(ids) by {
      forall x | x in RowIds(found)
        ensures x in IdsIn(ids)
      {
        RowIdsMembers(found, x);
        IdsInMembers(ids, x);
      }
    }
    SubsetSize(RowIds(found), IdsIn(ids));
    if |found| == |ids| {
      forall i, j | 0 <= i < j < |ids|
        ensures ids[i] != ids[j]
      {
        if ids[i] == ids[j] {
          DuplicateShrinks(ids, i, j);
        }
      }
      forall i | 0 <= i < |ids|
        ensures CartRowIndex(cs, ids[i], user).Some?
      {
        if CartRowIndex(cs, ids[i], user).None? {
          var missing := ids[i];
          assert RowIds(found) <= IdsIn(ids) - {missing} by {
            forall x | x in RowIds(found)
              ensures x != missing
            {
              RowIdsMembers(found, x);
              var j :| 0 <= j < |found| && found[j].id == x;
              assert found[j] in cs && p(found[j]);
            }
          }
          IdsInMembers(ids, missing);
          SubsetSize(RowIds(found), IdsIn(ids) - {missing});
        }
      }
    }
    if && (forall i, j :: 0 <= i < j < |ids| ==> ids[i] != ids[j])
       && (forall i :: 0 <= i < |ids| ==> CartRowIndex(cs, ids[i], user).Some?)
    {
      assert IdsIn(ids) <= RowIds(found) by {
        forall x | x in IdsIn(ids)
          ensures x in RowIds(found)
        {
          IdsInMembers(ids, x);
          var i :| 0 <= i < |ids| && ids[i] == x;
          var k := CartRowIndex(cs, x, user).value;
          assert p(cs[k]);
          FilterMembers(cs, p, cs[k]);
          var j :| 0 <= j < |found| && found[j] == cs[k];
          RowIdsMembers(found, x);
        }
      }
      SubsetSize(IdsIn(ids), RowIds(found));
    }
  }
}
