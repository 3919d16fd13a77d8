/**
 * The till: the open ticket, the line selected on it, the keypad entry, the
 * product search and category tab, and the last ticket paid.
 */
module PointOfSale {
  import opened Wrappers
  import opened Types
  import opened Text
  import opened Pricing
  import opened App

  class Terminal {
    var cart: seq<CartItem>
    var selectedItemId: Option<string>
    var numpadValue: string
    var searchTerm: string
    var activeCategory: Option<string>
    var lastSale: Option<Sale>

    /** One line per product, each with at least one unit, and a keypad entry made of keypad keys. */
    ghost predicate Valid()
      reads this
    {
      DistinctIds(cart) && PositiveQuantities(cart) && IsKeypadString(numpadValue)
    }

    /** A till with an empty ticket, opened on category tab `category`. */
    constructor (category: Option<string>)
      ensures Valid()
      ensures cart == [] && selectedItemId.None? && numpadValue == "" && searchTerm == ""
      ensures activeCategory == category && lastSale.None?
    {
      cart := [];
      selectedItemId := None;
      numpadValue := "";
      searchTerm := "";
      activeCategory := category;
      lastSale := None;
    }

    /** The subtotal shown under the ticket. */
    function TicketSubtotal(): (r: real)
      reads this
      ensures r == Subtotal(cart)
      ensures PositiveQuantities(cart) && (forall i :: 0 <= i < |cart| ==> cart[i].item.sellPrice >= 0.0) ==> r >= 0.0
    {
      var nonNegative := PositiveQuantities(cart) && (forall i :: 0 <= i < |cart| ==> cart[i].item.sellPrice >= 0.0);
      assert nonNegative ==> Subtotal(cart) >= 0.0 by {
        if nonNegative { SubtotalNonNegative(cart); }
      }
      Subtotal(cart)
    }

    /** The product grid for the current search term and category tab. */
    function VisibleProducts(products: seq<Product>): (r: seq<Product>)
      reads this
      ensures forall p :: p in r <==> p in products && MatchesSearch(p, searchTerm) && InCategory(p, activeCategory)
    {
      CatalogueView(products, searchTerm, activeCategory)
    }

    /**
     * Scans `product`: refused (nothing changes) when it is out of stock or the
     * quantity is NaN or not positive; otherwise the cart takes the units, the
     * product's line becomes the selection, and the keypad and search clear.
     */
    method AddToCart(product: Product, customQty: Option<int>)
      requires Valid()
      modifies this
      ensures Valid()
      ensures var qty := RequestedQuantity(customQty, old(numpadValue));
        !AddAccepted(product, qty) ==> unchanged(this)
      ensures var qty := RequestedQuantity(customQty, old(numpadValue));
        AddAccepted(product, qty) ==>
          && cart == AddLine(old(cart), product, qty.value)
          && selectedItemId == Some(product.id) && numpadValue == "" && searchTerm == ""
          && activeCategory == old(activeCategory) && lastSale == old(lastSale)
    {
      if product.stockQuantity <= 0 {
        return;
      }
      var qty := RequestedQuantity(customQty, numpadValue);
      if qty.None? || qty.value <= 0 {
        return;
      }
      cart := AddLine(cart, product, qty.value);
      selectedItemId := Some(product.id);
      numpadValue := "";
      searchTerm := "";
    }

    /**
     * The Enter key in the search box: the first product whose barcode or name
     * is the term is scanned; when none is, the term is cleared and nothing
     * else changes.
     */
    method SubmitSearch(products: seq<Product>)
      requires Valid()
      modifies this
      ensures Valid()
      ensures FindScanned(products, old(searchTerm)).None? ==>
        && searchTerm == "" && cart == old(cart) && selectedItemId == old(selectedItemId)
        && numpadValue == old(numpadValue) && activeCategory == old(activeCategory) && lastSale == old(lastSale)
      ensures match FindScanned(products, old(searchTerm))
        case None => true
        case Some(p) =>
          var qty := RequestedQuantity(None, old(numpadValue));
          && (!AddAccepted(p, qty) ==> unchanged(this))
          && (AddAccepted(p, qty) ==>
                cart == AddLine(old(cart), p, qty.value) && selectedItemId == Some(p.id)
                && numpadValue == "" && searchTerm == ""
                && activeCategory == old(activeCategory) && lastSale == old(lastSale))
    {
      match FindScanned(products, searchTerm)
      case Some(p) =>
        AddToCart(p, None);
      case None =>
        searchTerm := "";
    }

    /**
     * The quantity key: with a line selected and a whole number of at least
     * one typed, that line's quantity becomes the number and the keypad
     * clears; in every other case nothing changes.
     */
    method UpdateQuantityFromNumpad()
      requires Valid()
      modifies this
      ensures Valid()
      ensures !QuantityKeyApplies(old(selectedItemId), old(numpadValue)) ==> unchanged(this)
      ensures QuantityKeyApplies(old(selectedItemId), old(numpadValue)) ==>
        var id, n := old(selectedItemId).value, ParseInt(old(numpadValue)).value;
        && cart == SetLineQuantity(old(cart), id, n)
        && (forall k :: 0 <= k < |old(cart)| && old(cart)[k].Id() == id ==>
              cart == old(cart)[k := old(cart)[k].(quantity := n)])
        && numpadValue == ""
        && selectedItemId == old(selectedItemId) && searchTerm == old(searchTerm)
        && activeCategory == old(activeCategory) && lastSale == old(lastSale)
    {
      if selectedItemId.None? || selectedItemId.value == "" || numpadValue == "" {
        return;
      }
      var parsed := ParseInt(numpadValue);
      if parsed.None? || parsed.value < 1 {
        return;
      }
      forall k | 0 <= k < |cart| && cart[k].Id() == selectedItemId.value
        ensures SetLineQuantity(cart, selectedItemId.value, parsed.value) == cart[k := cart[k].(quantity := parsed.value)]
      {
        SetQuantityOfLine(cart, selectedItemId.value, parsed.value, k);
      }
      cart := SetLineQuantity(cart, selectedItemId.value, parsed.value);
      numpadValue := "";
    }

    /** A keypad key appends its character to the entry. */
    method PressKey(c: char)
      requires Valid() && IsKeypadChar(c)
      modifies this`numpadValue
      ensures Valid() && numpadValue == old(numpadValue) + [c]
    {
      numpadValue := numpadValue + [c];
    }

    /** The erase key empties the entry. */
    method ClearNumpad()
      requires Valid()
      modifies this`numpadValue
      ensures Valid() && numpadValue == ""
    {
      numpadValue := "";
    }

    /** Clicking a ticket line selects it. */
    method SelectLine(id: string)
      requires Valid()
      modifies this`selectedItemId
      ensures Valid() && selectedItemId == Some(id)
    {
      selectedItemId := Some(id);
    }

    /** Typing in the search box replaces the term. */
    method SetSearchTerm(term: string)
      requires Valid()
      modifies this`searchTerm
      ensures Valid() && searchTerm == term
    {
      searchTerm := term;
    }

    /** Clicking a category tab makes it the active one. */
    method SelectCategory(category: string)
      requires Valid()
      modifies this`activeCategory
      ensures Valid() && activeCategory == Some(category)
    {
      activeCategory := Some(category);
    }

    /** The cancel key empties the ticket; the selection and the keypad entry stay. */
    method CancelSale()
      requires Valid()
      modifies this`cart
      ensures Valid() && cart == []
    {
      cart := [];
    }

    /**
     * Payment in cash or by card: on an empty ticket nothing happens and no
     * sale is made; otherwise the ticket is priced, handed to the store to be
     * recorded, kept as the last sale, and the till starts a fresh ticket.
     */
    method HandlePayment(store: AppState, payment: PaymentMethod, saleId: string, timestamp: string, cashierId: string)
      returns (sale: Option<Sale>)
      requires Valid() && (payment == CASH || payment == CARD)
      modifies this, store`sales, store`products, store`customers
      ensures Valid()
      ensures old(cart) == [] ==> sale.None? && unchanged(this) && unchanged(store)
      ensures old(cart) != [] ==>
        var t := Ticket(old(cart), store.settings, payment, saleId, timestamp, cashierId);
        && sale == Some(t) && lastSale == Some(t)
        && t.items == old(cart) && t.total == Total(old(cart), store.settings) && IsPricedConsistently(t)
        && store.sales == old(store.sales) + [Finalized(t, store.settings, store.isOnline)]
        && store.products == StockAfterSale(old(store.products), old(cart))
        && store.customers == old(store.customers)
        && cart == [] && selectedItemId.None? && numpadValue == ""
        && searchTerm == old(searchTerm) && activeCategory == old(activeCategory)
    {
      if |cart| == 0 {
        return None;
      }
      var t := Ticket(cart, store.settings, payment, saleId, timestamp, cashierId);
      lastSale := Some(t);
      store.CompleteSale(t);
      cart := [];
      selectedItemId := None;
      numpadValue := "";
      sale := Some(t);
    }
  }

  /** The quantity key takes effect: a non-empty selection and a keypad entry that parses to at least 1. */
  predicate QuantityKeyApplies(selected: Option<string>, numpad: string) {
    && selected.Some? && selected.value != "" && numpad != ""
    && ParseInt(numpad).Some? && ParseInt(numpad).value >= 1
  }

  /** Typing "2.5" and pressing the quantity key on a selected line gives it 2 units. */
  lemma QuantityKeyTruncates(id: string)
    requires id != ""
    ensures QuantityKeyApplies(Some(id), "2.5") && ParseInt("2.5") == Some(2)
  {
    assert "2.5" == DecimalString(2) + ".5";
    ParseIntOfDecimal(2, ".5");
  }

  /** A keypad entry of zeros never changes a quantity. */
  lemma ZeroQuantityIsIgnored(selected: Option<string>, zeros: nat)
    requires zeros >= 1
    ensures !QuantityKeyApplies(selected, seq(zeros, _ => '0'))
  {
    var z := seq(zeros, _ => '0');
    if selected.Some? && selected.value != "" {
      DigitsValueLeadingZeros(z, []);
      assert z + [] == z;
      LeadingDigitsOfAppend(z, []);
    }
  }
}
