/**
  Cart grouping and pricing: `cartText` and the `confirmar` block group the
  cart's ids with a per-id quantity, price each group from the company's
  catalog and add the subtotals up. The tally is a plain object, and
  `Object.entries` lists integer keys in ascending order, so the groups come
  out in ascending id order whatever order the items were added in.
 */
module Cart {
  import opened Options
  import opened Strings
  import opened Tables

  const EmptyCartText: string := "🧺 Carrito vacío."

  predicate Increasing(keys: seq<nat>) {
    forall i, j :: 0 <= i < j < |keys| ==> keys[i] < keys[j]
  }

  /** Adds an integer key to an object's key list, which the engine keeps ascending. */
  function InsertKey(x: nat, keys: seq<nat>): (r: seq<nat>)
    requires Increasing(keys)
    ensures Increasing(r)
    ensures forall k :: k in r <==> k in keys || k == x
    ensures x in keys ==> r == keys
  {
    if keys == [] then [x]
    else if x < keys[0] then [x] + keys
    else if x == keys[0] then keys
    else [keys[0]] + InsertKey(x, keys[1..])
  }

  /** The keys of the tally object, in the order `Object.entries` lists them. */
  function Ids(cart: seq<nat>): (r: seq<nat>)
    ensures Increasing(r)
    ensures forall k :: k in r <==> k in cart
  {
    if cart == [] then []
    else
      var init := cart[..|cart| - 1];
      assert cart == init + [cart[|cart| - 1]];
      InsertKey(cart[|cart| - 1], Ids(init))
  }

  /** How many times `id` was added to the cart. */
  function Count(cart: seq<nat>, id: nat): nat {
    multiset(cart)[id]
  }

  /** `Number(p?.price || 0)`: an id missing from the catalog is priced 0. */
  function UnitPrice(catalog: seq<Product>, id: nat): int {
    match FindProduct(catalog, id)
    case Some(p) => p.price
    case None => 0
  }

  /**
    The line's product name: backend/index.js writes `p?.name || "Producto"`;
    index.js (`strict`) writes `p.name` and only gets here when `p` exists.
   */
  function LineName(catalog: seq<Product>, id: nat, strict: bool): string {
    match FindProduct(catalog, id)
    case Some(p) => if strict || p.name != "" then p.name else "Producto"
    case None => "Producto"
  }

  function LineFor(catalog: seq<Product>, cart: seq<nat>, id: nat, strict: bool): LineItem {
    var q := Count(cart, id);
    var unit := UnitPrice(catalog, id);
    LineItem(id, LineName(catalog, id, strict), q, unit, unit * q)
  }

  function LinesFor(catalog: seq<Product>, cart: seq<nat>, keys: seq<nat>, strict: bool): (r: seq<LineItem>)
    ensures |r| == |keys|
    ensures forall i :: 0 <= i < |keys| ==> r[i] == LineFor(catalog, cart, keys[i], strict)
  {
    seq(|keys|, i requires 0 <= i < |keys| => LineFor(catalog, cart, keys[i], strict))
  }

  /** The order's `itemsDetailed`, and the lines `cartText` renders. */
  function Lines(catalog: seq<Product>, cart: seq<nat>, strict: bool): seq<LineItem> {
    LinesFor(catalog, cart, Ids(cart), strict)
  }

  function SumSubtotals(lines: seq<LineItem>): int {
    if lines == [] then 0 else lines[0].subtotal + SumSubtotals(lines[1..])
  }

  function SumQuantities(lines: seq<LineItem>): int {
    if lines == [] then 0 else lines[0].qty + SumQuantities(lines[1..])
  }

  /** The reference total: every cart entry priced on its own, in cart order. */
  function ItemSum(catalog: seq<Product>, cart: seq<nat>): int {
    if cart == [] then 0 else ItemSum(catalog, cart[..|cart| - 1]) + UnitPrice(catalog, cart[|cart| - 1])
  }

  /** Every id in the cart is in the catalog (index.js dereferences each one). */
  predicate AllPriced(catalog: seq<Product>, cart: seq<nat>) {
    forall i :: 0 <= i < |cart| ==> FindProduct(catalog, cart[i]).Some?
  }

  // Sums over the grouped keys against sums over the cart, for any weight per id.

  function Prices(catalog: seq<Product>): nat -> int {
    (k: nat) => UnitPrice(catalog, k)
  }

  const Ones: nat -> int := (k: nat) => 1

  function KeyWeight(w: nat -> int, cart: seq<nat>, keys: seq<nat>): int {
    if keys == [] then 0 else w(keys[0]) * Count(cart, keys[0]) + KeyWeight(w, cart, keys[1..])
  }

  function PointWeight(w: nat -> int, cart: seq<nat>): int {
    if cart == [] then 0 else PointWeight(w, cart[..|cart| - 1]) + w(cart[|cart| - 1])
  }

  lemma CountAppend(cart: seq<nat>, x: nat, k: nat)
    ensures Count(cart + [x], k) == Count(cart, k) + (if k == x then 1 else 0)
  {
    assert multiset(cart + [x]) == multiset(cart) + multiset{x};
  }

  lemma MulOne(a: int, b: int)
    requires b == 1
    ensures a * b == a
  {
  }

  lemma MulSucc(a: int, b: int)
    ensures a * (b + 1) == a * b + a
  {
  }

  /** Adding `x` to the cart adds `w(x)` to the weight of any key list that holds `x` once. */
  lemma {:induction false} KeyWeightAppend(w: nat -> int, cart: seq<nat>, x: nat, keys: seq<nat>)
    requires Increasing(keys)
    ensures KeyWeight(w, cart + [x], keys) == KeyWeight(w, cart, keys) + (if x in keys then w(x) else 0)
  {
    if keys != [] {
      var k := keys[0];
      CountAppend(cart, x, k);
      if k == x {
        MulSucc(w(k), Count(cart, k));
      }
      KeyWeightAppend(w, cart, x, keys[1..]);
      assert x in keys <==> x == k || x in keys[1..];
      assert x == k ==> x !in keys[1..];
    }
  }

  lemma {:induction false} KeyWeightInsert(w: nat -> int, cart: seq<nat>, x: nat, keys: seq<nat>)
    requires Increasing(keys) && x !in keys
    ensures KeyWeight(w, cart, InsertKey(x, keys)) == KeyWeight(w, cart, keys) + w(x) * Count(cart, x)
  {
    if keys != [] && x > keys[0] {
      KeyWeightInsert(w, cart, x, keys[1..]);
      var r := InsertKey(x, keys);
      assert r[0] == keys[0] && r[1..] == InsertKey(x, keys[1..]);
    }
  }

  /** Grouping by id and weighting each group by its quantity gives the per-entry sum. */
  lemma {:induction false} GroupingPreservesWeight(w: nat -> int, cart: seq<nat>)
    ensures KeyWeight(w, cart, Ids(cart)) == PointWeight(w, cart)
  {
    if cart != [] {
      var init := cart[..|cart| - 1];
      var x := cart[|cart| - 1];
      assert cart == init + [x];
      var keys := Ids(init);
      assert Ids(cart) == InsertKey(x, keys);
      GroupingPreservesWeight(w, init);
      KeyWeightAppend(w, init, x, keys);
      if x !in keys {
        KeyWeightInsert(w, cart, x, keys);
        CountAppend(init, x, x);
        assert x !in init;
        MulOne(w(x), Count(cart, x));
      }
    }
  }

  lemma {:induction false} SubtotalsAreKeyWeight(catalog: seq<Product>, cart: seq<nat>, keys: seq<nat>, strict: bool)
    ensures SumSubtotals(LinesFor(catalog, cart, keys, strict)) == KeyWeight(Prices(catalog), cart, keys)
  {
    if keys != [] {
      SubtotalsAreKeyWeight(catalog, cart, keys[1..], strict);
      assert LinesFor(catalog, cart, keys, strict)[1..] == LinesFor(catalog, cart, keys[1..], strict);
    }
  }

  lemma {:induction false} QuantitiesAreKeyWeight(catalog: seq<Product>, cart: seq<nat>, keys: seq<nat>, strict: bool)
    ensures SumQuantities(LinesFor(catalog, cart, keys, strict)) == KeyWeight(Ones, cart, keys)
  {
    if keys != [] {
      QuantitiesAreKeyWeight(catalog, cart, keys[1..], strict);
      assert LinesFor(catalog, cart, keys, strict)[1..] == LinesFor(catalog, cart, keys[1..], strict);
    }
  }

  lemma {:induction false} PointWeightOfPrices(catalog: seq<Product>, cart: seq<nat>)
    ensures PointWeight(Prices(catalog), cart) == ItemSum(catalog, cart)
  {
    if cart != [] {
      PointWeightOfPrices(catalog, cart[..|cart| - 1]);
    }
  }

  lemma {:induction false} PointWeightOfOnes(cart: seq<nat>)
    ensures PointWeight(Ones, cart) == |cart|
  {
    if cart != [] {
      PointWeightOfOnes(cart[..|cart| - 1]);
    }
  }

  /** The total of the grouped lines is the sum of the unit prices of the cart's entries. */
  lemma TotalIsItemSum(catalog: seq<Product>, cart: seq<nat>, strict: bool)
    ensures SumSubtotals(Lines(catalog, cart, strict)) == ItemSum(catalog, cart)
  {
    SubtotalsAreKeyWeight(catalog, cart, Ids(cart), strict);
    GroupingPreservesWeight(Prices(catalog), cart);
    PointWeightOfPrices(catalog, cart);
  }

  /** The grouped quantities account for every entry of the cart exactly once. */
  lemma QuantitiesCoverCart(catalog: seq<Product>, cart: seq<nat>, strict: bool)
    ensures SumQuantities(Lines(catalog, cart, strict)) == |cart|
  {
    QuantitiesAreKeyWeight(catalog, cart, Ids(cart), strict);
    GroupingPreservesWeight(Ones, cart);
    PointWeightOfOnes(cart);
  }

  /** There is one line per distinct id of the cart, in ascending id order. */
  lemma LinesCoverCart(catalog: seq<Product>, cart: seq<nat>, strict: bool)
    ensures forall id :: id in cart ==> exists l :: l in Lines(catalog, cart, strict) && l.id == id
    ensures forall l :: l in Lines(catalog, cart, strict) ==> l.id in cart
    ensures forall i, j :: 0 <= i < j < |Lines(catalog, cart, strict)| ==>
      Lines(catalog, cart, strict)[i].id < Lines(catalog, cart, strict)[j].id
  {
    var keys := Ids(cart);
    var lines := Lines(catalog, cart, strict);
    forall id | id in cart
      ensures exists l :: l in lines && l.id == id
    {
      var i :| 0 <= i < |keys| && keys[i] == id;
      assert lines[i] in lines;
    }
  }

  /**
    Each line's quantity is the number of times its id is in the cart, its
    subtotal is unit price times quantity, and an id missing from the catalog
    is priced 0 under the name "Producto".
   */
  lemma LinesPriceEachGroup(catalog: seq<Product>, cart: seq<nat>, strict: bool)
    ensures forall l :: l in Lines(catalog, cart, strict) ==>
      && l.qty == multiset(cart)[l.id] && l.qty > 0
      && l.subtotal == l.unit * l.qty
      && (FindProduct(catalog, l.id).Some? ==> l.unit == FindProduct(catalog, l.id).value.price)
      && (FindProduct(catalog, l.id).None? ==> l.unit == 0 && l.name == "Producto")
  {
    var keys := Ids(cart);
    var lines := Lines(catalog, cart, strict);
    forall l | l in lines
      ensures l.qty == multiset(cart)[l.id] && l.qty > 0
    {
      var i :| 0 <= i < |lines| && lines[i] == l;
      assert keys[i] in cart;
    }
  }

  /** Grouping [1, 1, 2] against {1: $100, 2: $80} gives 2 x $100 and 1 x $80, $280 in all. */
  lemma GroupingExample(a: string, b: string)
    ensures var catalog := [Product(1, a, 100), Product(2, b, 80)];
      && Lines(catalog, [1, 1, 2], false)
         == [LineItem(1, if a == "" then "Producto" else a, 2, 100, 200),
             LineItem(2, if b == "" then "Producto" else b, 1, 80, 80)]
      && ItemSum(catalog, [1, 1, 2]) == 280
  {
    var catalog := [Product(1, a, 100), Product(2, b, 80)];
    ExampleIds();
    ExampleCounts();
    assert FindProduct(catalog, 1) == Some(catalog[0]);
    assert FindProduct(catalog, 2) == Some(catalog[1]);
    ExampleSum(catalog);
  }

  lemma ExampleIds()
    ensures Ids([1, 1, 2]) == [1, 2]
  {
    var cart: seq<nat> := [1, 1, 2];
    assert cart[..2] == [1, 1];
    assert [1, 1][..1] == [1];
    assert Ids([1]) == [1];
    assert Ids([1, 1]) == [1];
  }

  lemma ExampleCounts()
    ensures Count([1, 1, 2], 1) == 2 && Count([1, 1, 2], 2) == 1
  {
    var cart: seq<nat> := [1, 1, 2];
    assert multiset(cart) == multiset{1, 1, 2};
  }

  lemma ExampleSum(catalog: seq<Product>)
    requires UnitPrice(catalog, 1) == 100 && UnitPrice(catalog, 2) == 80
    ensures ItemSum(catalog, [1, 1, 2]) == 280
  {
    var cart: seq<nat> := [1, 1, 2];
    assert cart[..2] == [1, 1];
    assert [1, 1][..1] == [1];
    assert ItemSum(catalog, [1]) == 100;
    assert ItemSum(catalog, [1, 1]) == 200;
  }

  /**
    The loop over the cart that counts how often each product id occurs,
    with the ids in the order the engine keeps an object's integer keys.
   */
  method Tally(cart: seq<nat>) returns (out: map<nat, nat>, keys: seq<nat>)
    ensures keys == Ids(cart)
    ensures Tallies(out, cart)
  {
    out := map[];
    keys := [];
    for i := 0 to |cart|
      invariant keys == Ids(cart[..i])
      invariant Tallies(out, cart[..i])
    {
      var id := cart[i];
      KeysNext(cart, i);
      CountsNext(cart, i, out);
      out := out[id := (if id in out then out[id] else 0) + 1];
      keys := InsertKey(id, keys);
    }
    assert cart[..|cart|] == cart;
  }

  /** `out` holds exactly the ids of `seen`, each with the number of times it occurs. */
  ghost predicate Tallies(out: map<nat, nat>, seen: seq<nat>) {
    && (forall k :: k in out <==> k in seen)
    && (forall k :: k in out ==> out[k] == Count(seen, k))
  }

  lemma KeysNext(cart: seq<nat>, i: nat)
    requires i < |cart|
    ensures InsertKey(cart[i], Ids(cart[..i])) == Ids(cart[..i + 1])
  {
    var whole := cart[..i + 1];
    assert whole[..i] == cart[..i];
    IdsLast(whole);
  }

  lemma IdsLast(cart: seq<nat>)
    requires cart != []
    ensures Ids(cart) == InsertKey(cart[|cart| - 1], Ids(cart[..|cart| - 1]))
  {
  }

  lemma CountsNext(cart: seq<nat>, i: nat, out: map<nat, nat>)
    requires i < |cart| && Tallies(out, cart[..i])
    ensures Tallies(out[cart[i] := (if cart[i] in out then out[cart[i]] else 0) + 1], cart[..i + 1])
  {
    var prefix, id := cart[..i], cart[i];
    TallyStep(prefix, id, out);
    assert cart[..i + 1] == prefix + [id];
  }

  /** One `out[id] = (out[id] || 0) + 1` step keeps the tally equal to the counts. */
  lemma TallyStep(prefix: seq<nat>, id: nat, out: map<nat, nat>)
    requires Tallies(out, prefix)
    ensures Tallies(out[id := (if id in out then out[id] else 0) + 1], prefix + [id])
  {
    forall k ensures Count(prefix + [id], k) == Count(prefix, k) + (if k == id then 1 else 0) {
      CountAppend(prefix, id, k);
    }
    assert id !in out ==> Count(prefix, id) == 0;
  }

  /**
    The tally and the `Object.entries(...).map(...)` pass of `cartText` and
    `confirmar`, adding each subtotal to a running total. With `strict`
    (index.js) an id missing from the catalog makes the source throw, which
    is `ok == false` here.
   */
  method Group(catalog: seq<Product>, cart: seq<nat>, strict: bool) returns (ok: bool, lines: seq<LineItem>, total: int)
    ensures ok <==> !strict || AllPriced(catalog, cart)
    ensures ok ==> lines == Lines(catalog, cart, strict) && total == ItemSum(catalog, cart)
  {
    var out, keys := Tally(cart);
    total := 0;
    lines := [];
    for j := 0 to |keys|
      invariant lines == LinesFor(catalog, cart, keys[..j], strict)
      invariant total == SumSubtotals(lines)
      invariant strict ==> AllPriced(catalog, keys[..j])
    {
      var id := keys[j];
      var p := FindProduct(catalog, id);
      if strict && p.None? {
        PricedByKeys(catalog, cart);
        assert !AllPriced(catalog, keys);
        ok := false;
        return;
      }
      var q := out[id];
      var unit := if p.Some? then p.value.price else 0;
      var name := if p.Some? && (strict || p.value.name != "") then p.value.name else "Producto";
      var line := LineItem(id, name, q, unit, unit * q);
      assert line == LineFor(catalog, cart, id, strict);
      SumSubtotalsAppend(lines, line);
      LinesForStep(catalog, cart, keys, j, strict);
      total := total + line.subtotal;
      lines := lines + [line];
    }
    assert keys[..|keys|] == keys;
    TotalIsItemSum(catalog, cart, strict);
    PricedByKeys(catalog, cart);
    ok := true;
  }

  lemma LinesForStep(catalog: seq<Product>, cart: seq<nat>, keys: seq<nat>, j: nat, strict: bool)
    requires j < |keys|
    ensures LinesFor(catalog, cart, keys[..j + 1], strict)
      == LinesFor(catalog, cart, keys[..j], strict) + [LineFor(catalog, cart, keys[j], strict)]
    ensures AllPriced(catalog, keys[..j + 1])
      <==> AllPriced(catalog, keys[..j]) && FindProduct(catalog, keys[j]).Some?
  {
    assert keys[..j + 1] == keys[..j] + [keys[j]];
  }

  /** Every entry of the cart is priced exactly when every grouped id is. */
  lemma PricedByKeys(catalog: seq<Product>, cart: seq<nat>)
    ensures AllPriced(catalog, cart) <==> AllPriced(catalog, Ids(cart))
  {
    var keys := Ids(cart);
    if AllPriced(catalog, cart) {
      forall j | 0 <= j < |keys| ensures FindProduct(catalog, keys[j]).Some? {
        assert keys[j] in cart;
      }
    }
    if AllPriced(catalog, keys) {
      forall i | 0 <= i < |cart| ensures FindProduct(catalog, cart[i]).Some? {
        assert cart[i] in keys;
      }
    }
  }

  lemma {:induction false} SumSubtotalsAppend(lines: seq<LineItem>, l: LineItem)
    ensures SumSubtotals(lines + [l]) == SumSubtotals(lines) + l.subtotal
  {
    if lines != [] {
      assert (lines + [l])[1..] == lines[1..] + [l];
      SumSubtotalsAppend(lines[1..], l);
    }
  }

  function LineText(l: LineItem): string {
    "• " + l.name + " x" + NatToString(l.qty) + " — $" + IntToString(l.subtotal)
  }

  function RenderCart(companyName: string, lines: seq<LineItem>, total: int): string {
    "🧾 " + companyName + "\n"
    + Join(seq(|lines|, i requires 0 <= i < |lines| => LineText(lines[i])), "\n")
    + "\nTotal: $" + IntToString(total)
  }

  /**
    What `cartText` shows for a cart of company `c`. `None` where the source
    throws: no company row to read the catalog from, or (index.js) an id
    missing from the catalog.
   */
  function CartView(c: Option<Company>, cart: seq<nat>, strict: bool): Option<string> {
    if cart == [] then Some(EmptyCartText)
    else match c
      case None => None
      case Some(c) =>
        if strict && !AllPriced(c.catalog, cart) then None
        else Some(RenderCart(c.name, Lines(c.catalog, cart, strict), ItemSum(c.catalog, cart)))
  }

  /** `cartText(s)`, given what `getCompanySafe(s)` returned. */
  method CartText(c: Option<Company>, cart: seq<nat>, strict: bool) returns (text: Option<string>)
    ensures text.None? <==> cart != [] && (c.None? || (strict && !AllPriced(c.value.catalog, cart)))
    ensures cart == [] ==> text == Some(EmptyCartText)
    ensures text == CartView(c, cart, strict)
  {
    if cart == [] {
      return Some(EmptyCartText);
    }
    if c.None? {
      return None;
    }
    var ok, lines, total := Group(c.value.catalog, cart, strict);
    if !ok {
      return None;
    }
    text := Some(RenderCart(c.value.name, lines, total));
  }
}
