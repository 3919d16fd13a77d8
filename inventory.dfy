/**
 * The stock screen: the product list with its search and ALL / LOW_STOCK /
 * NEAR_EXPIRY filter, manual stock adjustments, and the product form used
 * both to create a product and to edit one.
 */
module Inventory {
  import opened Wrappers
  import opened Types
  import opened Text
  import opened Lists
  import opened Expiry
  import opened App

  // ---------------------------------------------------------------------------
  // The product list
  // ---------------------------------------------------------------------------

  datatype ListFilter = ALL | LOW_STOCK | NEAR_EXPIRY

  /** The filter's own condition, on top of the search: low stock, or a date near or past expiry. */
  predicate PassesListFilter(p: Product, filter: ListFilter, now: int) {
    match filter
    case ALL => true
    case LOW_STOCK => IsLowStock(p)
    case NEAR_EXPIRY => IsNearExpiry(p.expiryDate, now) || IsExpired(p.expiryDate, now)
  }

  /** The rows of the stock table, in catalogue order. */
  function InventoryView(products: seq<Product>, search: string, filter: ListFilter, now: int): (r: seq<Product>)
    ensures forall p :: p in r <==> p in products && MatchesSearch(p, search) && PassesListFilter(p, filter, now)
    ensures IsSubsequence(r, products)
    ensures forall p :: multiset(r)[p] == if MatchesSearch(p, search) && PassesListFilter(p, filter, now) then multiset(products)[p] else 0
  {
    var keep := (p: Product) => MatchesSearch(p, search) && PassesListFilter(p, filter, now);
    FilterCounts(products, keep);
    FilterMembers(products, keep);
    FilterIsSubsequence(products, keep);
    Filter(products, keep)
  }

  /** With no search term, the ALL filter lists the whole catalogue in order. */
  lemma FullListWithoutSearch(products: seq<Product>, now: int)
    ensures InventoryView(products, "", ALL, now) == products
  {
    forall p | p in products
      ensures MatchesSearch(p, "")
    {
      EmptySearchMatches(p);
    }
    FilterKeepsAll(products, (p: Product) => MatchesSearch(p, "") && PassesListFilter(p, ALL, now));
  }

  /** With no search term, the LOW_STOCK filter lists exactly as many products as the alert badge counts. */
  lemma LowStockListMatchesBadge(products: seq<Product>, now: int)
    ensures |InventoryView(products, "", LOW_STOCK, now)| == AlertsCount(products)
  {
    forall p | p in products
      ensures MatchesSearch(p, "")
    {
      EmptySearchMatches(p);
    }
    FilterSameTest(products, (p: Product) => MatchesSearch(p, "") && PassesListFilter(p, LOW_STOCK, now), IsLowStock);
  }

  // ---------------------------------------------------------------------------
  // Stock adjustments
  // ---------------------------------------------------------------------------

  datatype AdjustmentKind = ADD | SUBTRACT

  /** A delivery (`ADD`) or a write-off (`SUBTRACT`) of `quantity` units, as typed (possibly negative). */
  datatype StockAdjustment = StockAdjustment(kind: AdjustmentKind, quantity: int)

  /** The adjustment form as it is reset: a delivery of nothing. */
  const NoAdjustment := StockAdjustment(ADD, 0)

  /** The product after an adjustment: stock moves by the signed quantity and is floored at zero. */
  function AdjustedStock(p: Product, adj: StockAdjustment): (r: Product)
    ensures r.stockQuantity >= 0
    ensures r.(stockQuantity := p.stockQuantity) == p
    ensures adj.kind == ADD ==> r.stockQuantity == if p.stockQuantity + adj.quantity < 0 then 0 else p.stockQuantity + adj.quantity
    ensures adj.kind == SUBTRACT ==> r.stockQuantity == if p.stockQuantity - adj.quantity < 0 then 0 else p.stockQuantity - adj.quantity
  {
    var delta := if adj.kind == ADD then adj.quantity else -adj.quantity;
    var raw := p.stockQuantity + delta;
    p.(stockQuantity := if raw < 0 then 0 else raw)
  }

  /** Writing off more than is in stock empties the shelf instead of going negative. */
  lemma OverWriteOffEmpties(p: Product, q: int)
    requires q >= p.stockQuantity
    ensures AdjustedStock(p, StockAdjustment(SUBTRACT, q)).stockQuantity == 0
  {
  }

  /** A delivery of `q` followed by a write-off of `q` restores a stock that was not negative. */
  lemma DeliveryThenWriteOff(p: Product, q: nat)
    requires p.stockQuantity >= 0
    ensures AdjustedStock(AdjustedStock(p, StockAdjustment(ADD, q)), StockAdjustment(SUBTRACT, q)) == p
  {
  }

  // ---------------------------------------------------------------------------
  // The product form
  // ---------------------------------------------------------------------------

  /**
   * The product form: every product field, with the id present only when the
   * form was filled from an existing product.
   */
  datatype ProductForm = ProductForm(
    id: Option<string>,
    barcode: string,
    name: string,
    category: string,
    buyPrice: real,
    sellPrice: real,
    discountPercentage: real,
    tva: real,
    stockQuantity: int,
    minStock: int,
    expiryDate: Option<int>,
    imageUrl: string)

  /** The form of a new product: grocery category, VAT 19, reorder threshold 5, everything else empty or zero. */
  const BlankForm := ProductForm(None, "", "", "Épicerie", 0.0, 0.0, 0.0, 19.0, 0, 5, None, "")

  /** The form filled from an existing product, to edit it. */
  function FormOf(p: Product): (r: ProductForm)
    ensures r.id == Some(p.id)
    ensures MergeEdit(p, r) == p
  {
    ProductForm(Some(p.id), p.barcode, p.name, p.category, p.buyPrice, p.sellPrice, p.discountPercentage,
                p.tva, p.stockQuantity, p.minStock, p.expiryDate, p.imageUrl)
  }

  /** The edited product: the form's fields over the product being edited. */
  function MergeEdit(editing: Product, form: ProductForm): (r: Product)
    ensures form.id.None? || form.id == Some(editing.id) ==> r.id == editing.id
    ensures r.barcode == form.barcode && r.name == form.name && r.category == form.category
    ensures r.buyPrice == form.buyPrice && r.sellPrice == form.sellPrice
    ensures r.discountPercentage == form.discountPercentage && r.tva == form.tva
    ensures r.stockQuantity == form.stockQuantity && r.minStock == form.minStock
    ensures r.expiryDate == form.expiryDate && r.imageUrl == form.imageUrl
  {
    Product(form.id.GetOr(editing.id), form.barcode, form.name, form.category, form.buyPrice, form.sellPrice,
            form.discountPercentage, form.tva, form.stockQuantity, form.minStock, form.expiryDate, form.imageUrl)
  }

  /** The largest number the barcode generator draws, plus one: 10^9. */
  const BarcodeRange: nat := 1_000_000_000

  /** A generated barcode: "619" followed by `n` written on ten digits, zero-padded on the left. */
  function GeneratedBarcode(n: nat): (r: string)
    requires n < BarcodeRange
    ensures |r| == 13 && AllDigits(r) && r[..3] == "619"
    ensures DigitsValue(r[3..]) == n
  {
    var digits := DecimalString(n);
    assert Pow10(9) == BarcodeRange;
    DecimalStringLength(n, 9);
    var padded := PadStart(digits, 10, '0');
    assert padded == padded[..|padded| - |digits|] + digits;
    DigitsValueLeadingZeros(padded[..|padded| - |digits|], digits);
    DigitsValueOfDecimal(n);
    var r := "619" + padded;
    assert r[3..] == padded;
    r
  }

  /** The new product: the form's fields, a fresh id, and the typed barcode or, when none was typed, a generated one. */
  function NewProduct(form: ProductForm, newId: string, barcodeNumber: nat): (r: Product)
    requires barcodeNumber < BarcodeRange
    ensures r.id == newId
    ensures form.barcode != "" ==> r.barcode == form.barcode
    ensures form.barcode == "" ==> r.barcode == GeneratedBarcode(barcodeNumber)
    ensures r.(id := form.id.GetOr(r.id), barcode := form.barcode) == MergeEdit(r, form)
  {
    var barcode := if form.barcode != "" then form.barcode else GeneratedBarcode(barcodeNumber);
    Product(newId, barcode, form.name, form.category, form.buyPrice, form.sellPrice,
            form.discountPercentage, form.tva, form.stockQuantity, form.minStock, form.expiryDate, form.imageUrl)
  }

  /** Two different draws give two different generated barcodes. */
  lemma GeneratedBarcodesDiffer(m: nat, n: nat)
    requires m < BarcodeRange && n < BarcodeRange && m != n
    ensures GeneratedBarcode(m) != GeneratedBarcode(n)
  {
  }

  // ---------------------------------------------------------------------------
  // The screen's state
  // ---------------------------------------------------------------------------

  class InventoryScreen {
    var search: string
    var filter: ListFilter
    var isProductModalOpen: bool
    var isStockModalOpen: bool
    var selectedProduct: Option<Product>
    var editingProduct: Option<Product>
    var productForm: ProductForm
    var stockAdjustment: StockAdjustment

    /** The form is the blank one's kind (no id) when adding, and carries the edited product's id when editing. */
    ghost predicate Valid()
      reads this
    {
      match editingProduct
      case None => productForm.id.None?
      case Some(e) => productForm.id == Some(e.id)
    }

    constructor ()
      ensures Valid()
      ensures search == "" && filter == ALL && !isProductModalOpen && !isStockModalOpen
      ensures selectedProduct.None? && editingProduct.None? && productForm == BlankForm
      ensures stockAdjustment == NoAdjustment
    {
      search := "";
      filter := ALL;
      isProductModalOpen := false;
      isStockModalOpen := false;
      selectedProduct := None;
      editingProduct := None;
      productForm := BlankForm;
      stockAdjustment := NoAdjustment;
    }

    /** The rows on screen. */
    function Rows(products: seq<Product>, now: int): (r: seq<Product>)
      reads this
      ensures forall p :: p in r <==> p in products && MatchesSearch(p, search) && PassesListFilter(p, filter, now)
    {
      InventoryView(products, search, filter, now)
    }

    method SetSearch(term: string)
      modifies this`search
      ensures search == term
    {
      search := term;
    }

    method SetFilter(f: ListFilter)
      modifies this`filter
      ensures filter == f
    {
      filter := f;
    }

    /** Opens the form for a new product, reset to the blank form. */
    method OpenAddModal()
      modifies this`editingProduct, this`productForm, this`isProductModalOpen
      ensures Valid() && editingProduct.None? && productForm == BlankForm && isProductModalOpen
    {
      editingProduct := None;
      productForm := BlankForm;
      isProductModalOpen := true;
    }

    /** Opens the form on an existing product. */
    method OpenEditModal(p: Product)
      modifies this`editingProduct, this`productForm, this`isProductModalOpen
      ensures Valid() && editingProduct == Some(p) && productForm == FormOf(p) && isProductModalOpen
    {
      editingProduct := Some(p);
      productForm := FormOf(p);
      isProductModalOpen := true;
    }

    /** Typing in the form: every field can change except the id, which no input edits. */
    method EditForm(fields: ProductForm)
      requires Valid()
      modifies this`productForm
      ensures Valid() && productForm == fields.(id := old(productForm).id)
    {
      productForm := fields.(id := productForm.id);
    }

    /**
     * Saves the form: an edit replaces the product with the merged record,
     * which keeps its id; otherwise a new product with id `newId` goes in
     * front of the catalogue. The form closes.
     */
    method SubmitProduct(app: AppState, newId: string, barcodeNumber: nat)
      requires Valid() && barcodeNumber < BarcodeRange
      modifies this`isProductModalOpen, app`products
      ensures Valid() && !isProductModalOpen
      ensures match editingProduct
        case Some(e) =>
          && app.products == ReplaceProduct(old(app.products), MergeEdit(e, productForm))
          && MergeEdit(e, productForm).id == e.id
        case None => app.products == [NewProduct(productForm, newId, barcodeNumber)] + old(app.products)
    {
      match editingProduct {
        case Some(e) =>
          app.UpdateProduct(MergeEdit(e, productForm));
        case None =>
          app.AddProduct(NewProduct(productForm, newId, barcodeNumber));
      }
      isProductModalOpen := false;
    }

    /** Opens the adjustment form on a product, reset to a delivery of nothing. */
    method OpenStockModal(p: Product)
      modifies this`selectedProduct, this`stockAdjustment, this`isStockModalOpen
      ensures selectedProduct == Some(p) && stockAdjustment == NoAdjustment && isStockModalOpen
    {
      selectedProduct := Some(p);
      stockAdjustment := NoAdjustment;
      isStockModalOpen := true;
    }

    /** Typing in the adjustment form. */
    method SetAdjustment(adj: StockAdjustment)
      modifies this`stockAdjustment
      ensures stockAdjustment == adj
    {
      stockAdjustment := adj;
    }

    /**
     * Applies the adjustment: with no product chosen nothing happens;
     * otherwise the chosen product is replaced by its adjusted copy, the form
     * closes and resets to a delivery of nothing.
     */
    method SubmitStock(app: AppState)
      modifies this`isStockModalOpen, this`stockAdjustment, app`products
      ensures old(selectedProduct).None? ==> unchanged(this) && unchanged(app)
      ensures old(selectedProduct).Some? ==>
        && app.products == ReplaceProduct(old(app.products), AdjustedStock(selectedProduct.value, old(stockAdjustment)))
        && !isStockModalOpen && stockAdjustment == NoAdjustment
    {
      if selectedProduct.None? {
        return;
      }
      app.UpdateProduct(AdjustedStock(selectedProduct.value, stockAdjustment));
      isStockModalOpen := false;
      stockAdjustment := NoAdjustment;
    }
  }
}
