/**
 * The till's pure computations: ticket totals, the price frozen into a cart
 * line, the cart updates performed by the state setters, the keypad
 * quantity, the scanner lookup and the product grid filter.
 */
module Pricing {
  import opened Wrappers
  import opened Types
  import opened Text
  import opened Lists

  // ---------------------------------------------------------------------------
  // Ticket totals
  // ---------------------------------------------------------------------------

  /** Σ sellPrice × quantity over the ticket's lines. */
  function Subtotal(cart: seq<CartItem>): real
    decreases |cart|
  {
    if cart == [] then 0.0 else cart[0].LineTotal() + Subtotal(cart[1..])
  }

  /** The flat per-ticket levy, when the shop charges it. */
  function TaxStamp(settings: StoreSettings): real {
    if settings.taxStampEnabled then settings.taxStampAmount else 0.0
  }

  /** The amount to pay: the subtotal plus the tax stamp. */
  function Total(cart: seq<CartItem>, settings: StoreSettings): real {
    Subtotal(cart) + TaxStamp(settings)
  }

  /** The VAT reported on a ticket: a flat 19% of the subtotal, whatever each product's own rate. */
  const TaxRate: real := 0.19

  /** The subtotal of two tickets put end to end is the sum of their subtotals. */
  lemma {:induction false} SubtotalAppend(a: seq<CartItem>, b: seq<CartItem>)
    ensures Subtotal(a + b) == Subtotal(a) + Subtotal(b)
    decreases |a|
  {
    if a == [] {
      assert a + b == b;
    } else {
      SubtotalAppend(a[1..], b);
      assert (a + b)[0] == a[0];
      assert (a + b)[1..] == a[1..] + b;
    }
  }

  /** Replacing one line changes the subtotal by the difference of the two line totals. */
  lemma SubtotalReplace(cart: seq<CartItem>, k: nat, line: CartItem)
    requires k < |cart|
    ensures Subtotal(cart[k := line]) == Subtotal(cart) - cart[k].LineTotal() + line.LineTotal()
  {
    assert cart == cart[..k] + ([cart[k]] + cart[k + 1..]);
    assert cart[k := line] == cart[..k] + ([line] + cart[k + 1..]);
    SubtotalAppend(cart[..k], [cart[k]] + cart[k + 1..]);
    SubtotalAppend(cart[..k], [line] + cart[k + 1..]);
    SubtotalAppend([cart[k]], cart[k + 1..]);
    SubtotalAppend([line], cart[k + 1..]);
  }

  /** With non-negative prices and quantities the subtotal is non-negative. */
  lemma {:induction false} SubtotalNonNegative(cart: seq<CartItem>)
    requires forall i :: 0 <= i < |cart| ==> cart[i].item.sellPrice >= 0.0 && cart[i].quantity >= 0
    ensures Subtotal(cart) >= 0.0
    decreases |cart|
  {
    if cart != [] {
      SubtotalNonNegative(cart[1..]);
      var p, q := cart[0].item.sellPrice, cart[0].quantity as real;
      assert p * q >= 0.0;
    }
  }

  // ---------------------------------------------------------------------------
  // The finalised ticket
  // ---------------------------------------------------------------------------

  /**
   * The pricing invariant of a ticket: the subtotal is the sum of its line
   * totals, the total adds the stamp once, and the VAT is 19% of the subtotal.
   */
  predicate IsPricedConsistently(s: Sale) {
    && s.subtotal == Subtotal(s.items)
    && s.total == s.subtotal + s.taxStamp
    && s.taxAmount == s.subtotal * TaxRate
  }

  /** The sale the till builds at payment, before the back office stamps sync state and points on it. */
  function Ticket(cart: seq<CartItem>, settings: StoreSettings, payment: PaymentMethod,
                  id: string, timestamp: string, cashierId: string): (r: Sale)
    ensures IsPricedConsistently(r)
    ensures r.items == cart && r.taxStamp == TaxStamp(settings) && r.total == Total(cart, settings)
    ensures r.paymentMethod == payment && r.id == id && r.timestamp == timestamp && r.cashierId == cashierId
    ensures r.customerId.None? && !r.isSynced && r.pointsEarned.None?
  {
    var subtotal := Subtotal(cart);
    Sale(id, timestamp, cart, Total(cart, settings), subtotal, subtotal * TaxRate, TaxStamp(settings),
         payment, None, cashierId, false, None)
  }

  // ---------------------------------------------------------------------------
  // Cart lines
  // ---------------------------------------------------------------------------

  /** Every line of the cart holds at least one unit. */
  predicate PositiveQuantities(cart: seq<CartItem>) {
    forall i :: 0 <= i < |cart| ==> cart[i].quantity >= 1
  }

  /** `cart.find(item => item.id === id)`, as a position. */
  function FindLine(cart: seq<CartItem>, id: string): (r: Option<nat>)
    ensures r.Some? ==> r.value < |cart| && cart[r.value].Id() == id
    ensures r.Some? ==> forall j :: 0 <= j < r.value ==> cart[j].Id() != id
    ensures r.None? <==> forall j :: 0 <= j < |cart| ==> cart[j].Id() != id
  {
    FindFirst(cart, (line: CartItem) => line.Id() == id)
  }

  /** In a list of distinct products, the line found for `id` is the one line about `id`. */
  lemma FindLineUnique(cart: seq<CartItem>, id: string, k: nat)
    requires DistinctIds(cart) && k < |cart| && cart[k].Id() == id
    ensures FindLine(cart, id) == Some(k)
  {
  }

  /** The unit price frozen into a new line: the sell price less the discount, if there is one. */
  function ResolvedPrice(p: Product): (r: real)
    ensures p.discountPercentage == 0.0 ==> r == p.sellPrice
    ensures 0.0 <= p.sellPrice && 0.0 <= p.discountPercentage <= 100.0 ==> 0.0 <= r <= p.sellPrice
  {
    if p.discountPercentage != 0.0 then
      var factor := 1.0 - p.discountPercentage / 100.0;
      assert 0.0 <= p.sellPrice && 0.0 <= factor <= 1.0 ==> 0.0 <= p.sellPrice * factor <= p.sellPrice;
      p.sellPrice * factor
    else p.sellPrice
  }

  /**
   * The cart after scanning `qty` units of `product`: an existing line for
   * the product grows, otherwise a new line goes in front.
   */
  function AddLine(cart: seq<CartItem>, product: Product, qty: int): (r: seq<CartItem>)
    ensures FindLine(r, product.id).Some?
    ensures |r| == if FindLine(cart, product.id).Some? then |cart| else |cart| + 1
    ensures DistinctIds(cart) ==> DistinctIds(r)
    ensures PositiveQuantities(cart) && qty > 0 ==> PositiveQuantities(r)
  {
    match FindLine(cart, product.id)
    case Some(k) =>
      var r := seq(|cart|, i requires 0 <= i < |cart| =>
        if cart[i].Id() == product.id then cart[i].(quantity := cart[i].quantity + qty) else cart[i]);
      assert r[k].Id() == product.id;
      r
    case None =>
      [CartItem(product.(sellPrice := ResolvedPrice(product)), qty)] + cart
  }

  /**
   * Scanning a product that already has a line: that line's quantity grows by
   * `qty`, keeping its frozen price; every other line and the length stay.
   */
  lemma AddToExistingLine(cart: seq<CartItem>, product: Product, qty: int, k: nat)
    requires DistinctIds(cart) && k < |cart| && cart[k].Id() == product.id
    ensures AddLine(cart, product, qty) == cart[k := cart[k].(quantity := cart[k].quantity + qty)]
  {
    FindLineUnique(cart, product.id, k);
  }

  /**
   * Scanning a product without a line: a line with `qty` units at the
   * resolved price goes in front of the unchanged cart.
   */
  lemma AddNewLine(cart: seq<CartItem>, product: Product, qty: int)
    requires forall j :: 0 <= j < |cart| ==> cart[j].Id() != product.id
    ensures var r := AddLine(cart, product, qty);
      && |r| == |cart| + 1 && r[1..] == cart
      && r[0].Id() == product.id && r[0].quantity == qty
      && r[0].item == product.(sellPrice := ResolvedPrice(product))
  {
  }

  /** The unit price a scan of `product` is charged at: that of its existing line, or the resolved price. */
  function ChargedPrice(cart: seq<CartItem>, product: Product): real {
    match FindLine(cart, product.id)
    case Some(k) => cart[k].item.sellPrice
    case None => ResolvedPrice(product)
  }

  /** Scanning `qty` units raises the subtotal by exactly `qty` times the charged unit price. */
  lemma SubtotalAfterAdd(cart: seq<CartItem>, product: Product, qty: int)
    requires DistinctIds(cart)
    ensures Subtotal(AddLine(cart, product, qty)) == Subtotal(cart) + ChargedPrice(cart, product) * qty as real
  {
    match FindLine(cart, product.id)
    case Some(k) =>
      AddToExistingLine(cart, product, qty, k);
      SubtotalReplace(cart, k, cart[k].(quantity := cart[k].quantity + qty));
    case None =>
      AddNewLine(cart, product, qty);
      SubtotalAppend([AddLine(cart, product, qty)[0]], cart);
      assert AddLine(cart, product, qty) == [AddLine(cart, product, qty)[0]] + cart;
  }

  /** The cart after the keypad sets the quantity of the line for `id` to `qty`. */
  function SetLineQuantity(cart: seq<CartItem>, id: string, qty: int): (r: seq<CartItem>)
    ensures |r| == |cart| && forall i :: 0 <= i < |r| ==> r[i].Id() == cart[i].Id()
    ensures DistinctIds(cart) ==> DistinctIds(r)
    ensures PositiveQuantities(cart) && qty >= 1 ==> PositiveQuantities(r)
  {
    seq(|cart|, i requires 0 <= i < |cart| =>
      if cart[i].Id() == id then cart[i].(quantity := qty) else cart[i])
  }

  /** Setting the quantity of a line in the cart changes that line's quantity and nothing else. */
  lemma SetQuantityOfLine(cart: seq<CartItem>, id: string, qty: int, k: nat)
    requires DistinctIds(cart) && k < |cart| && cart[k].Id() == id
    ensures SetLineQuantity(cart, id, qty) == cart[k := cart[k].(quantity := qty)]
  {
  }

  /**
   * Setting a line's quantity swaps its old line total for the line total at
   * the new quantity (same frozen price) in the subtotal.
   */
  lemma SubtotalAfterSetQuantity(cart: seq<CartItem>, id: string, qty: int, k: nat)
    requires DistinctIds(cart) && k < |cart| && cart[k].Id() == id
    ensures Subtotal(SetLineQuantity(cart, id, qty))
         == Subtotal(cart) - cart[k].LineTotal() + CartItem(cart[k].item, qty).LineTotal()
  {
    SetQuantityOfLine(cart, id, qty, k);
    SubtotalReplace(cart, k, cart[k].(quantity := qty));
  }

  /** Setting the quantity of a product that has no line leaves the cart as it is. */
  lemma SetQuantityOfMissingLine(cart: seq<CartItem>, id: string, qty: int)
    requires FindLine(cart, id).None?
    ensures SetLineQuantity(cart, id, qty) == cart
  {
  }

  // ---------------------------------------------------------------------------
  // Quantities typed on the keypad
  // ---------------------------------------------------------------------------

  /** The keys of the till's keypad: the ten digits and the decimal point. */
  predicate IsKeypadChar(c: char) {
    IsDigit(c) || c == '.'
  }

  predicate IsKeypadString(s: string) {
    forall i :: 0 <= i < |s| ==> IsKeypadChar(s[i])
  }

  /**
   * The quantity a scan applies: an explicit non-zero quantity, else the
   * integer part of what was typed on the keypad, else 1; `None` stands for NaN.
   */
  function RequestedQuantity(customQty: Option<int>, numpad: string): Option<int> {
    if customQty.Some? && customQty.value != 0 then customQty
    else if numpad != "" then
      match ParseInt(numpad)
      case None => None
      case Some(n) => Some(n as int)
    else Some(1)
  }

  /** A scan changes the cart only for a product in stock and a positive quantity. */
  predicate AddAccepted(product: Product, qty: Option<int>) {
    product.stockQuantity > 0 && qty.Some? && qty.value > 0
  }

  /** Typing "n.f" on the keypad before a scan applies n units: the fraction is dropped. */
  lemma KeypadQuantityTruncates(n: nat, fraction: string)
    ensures RequestedQuantity(None, DecimalString(n) + "." + fraction) == Some(n)
  {
    assert DecimalString(n) + "." + fraction == DecimalString(n) + ("." + fraction);
    ParseIntOfDecimal(n, "." + fraction);
  }

  /** With nothing typed and no explicit quantity a scan applies one unit. */
  lemma EmptyKeypadMeansOne()
    ensures RequestedQuantity(None, "") == Some(1)
  {
  }

  /** A keypad entry that begins with the decimal point is NaN, so the scan is refused. */
  lemma LeadingPointIsRefused(product: Product, rest: string)
    ensures !AddAccepted(product, RequestedQuantity(None, "." + rest))
  {
  }

  // ---------------------------------------------------------------------------
  // Scanner lookup and product grid
  // ---------------------------------------------------------------------------

  /** A scanned or typed term names a product by its exact barcode or, ignoring case, its exact name. */
  predicate MatchesScan(p: Product, term: string) {
    p.barcode == term || Lower(p.name) == Lower(term)
  }

  /** `products.find(...)` for the Enter key: the first product the term names. */
  function FindScanned(products: seq<Product>, term: string): (r: Option<Product>)
    ensures r.None? <==> forall j :: 0 <= j < |products| ==> !MatchesScan(products[j], term)
    ensures r.Some? ==> exists k :: 0 <= k < |products| && products[k] == r.value && MatchesScan(r.value, term)
                                    && forall j :: 0 <= j < k ==> !MatchesScan(products[j], term)
  {
    match FindFirst(products, (p: Product) => MatchesScan(p, term))
    case None => None
    case Some(k) => Some(products[k])
  }

  /** The category tab lets a product through when no tab is chosen or the product belongs to it. */
  predicate InCategory(p: Product, activeCategory: Option<string>) {
    activeCategory.None? || activeCategory.value == "" || p.category == activeCategory.value
  }

  /** The product grid: products matching the search term and the chosen category, in catalogue order. */
  function CatalogueView(products: seq<Product>, search: string, activeCategory: Option<string>): (r: seq<Product>)
    ensures forall p :: p in r <==> p in products && MatchesSearch(p, search) && InCategory(p, activeCategory)
    ensures IsSubsequence(r, products)
    ensures forall p :: multiset(r)[p] == if MatchesSearch(p, search) && InCategory(p, activeCategory) then multiset(products)[p] else 0
  {
    var keep := (p: Product) => MatchesSearch(p, search) && InCategory(p, activeCategory);
    FilterCounts(products, keep);
    FilterMembers(products, keep);
    FilterIsSubsequence(products, keep);
    Filter(products, keep)
  }

  // ---------------------------------------------------------------------------
  // A worked ticket
  // ---------------------------------------------------------------------------

  /** Two units at 1.000 and one at 2.500 with a 0.100 stamp: subtotal 4.500, total 4.600. */
  lemma WorkedTicket(a: Product, b: Product, settings: StoreSettings)
    requires a.sellPrice == 1.0 && b.sellPrice == 2.5
    requires settings.taxStampEnabled && settings.taxStampAmount == 0.1
    ensures var cart := [CartItem(a, 2), CartItem(b, 1)];
      Subtotal(cart) == 4.5 && Total(cart, settings) == 4.6
  {
    var cart := [CartItem(a, 2), CartItem(b, 1)];
    assert cart[1..] == [CartItem(b, 1)];
    assert cart[1..][1..] == [];
    assert Subtotal(cart[1..]) == 2.5;
  }
}
