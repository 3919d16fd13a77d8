/**
 * The records the store works with. Money is exact (`real`), stock and
 * quantities are integers, points in time are milliseconds since the epoch.
 */
module Types {
  import opened Wrappers
  import opened Text

  datatype Role = ADMIN | CASHIER

  datatype User = User(id: string, name: string, role: Role)

  /** Shop configuration read by the till: the per-ticket tax stamp and the loyalty programme. */
  datatype StoreSettings = StoreSettings(
    name: string,
    address: string,
    phone: string,
    matriculeFiscal: string,
    taxStampEnabled: bool,
    taxStampAmount: real,
    loyaltyEnabled: bool,
    loyaltyRate: real)

  /**
   * A catalogue entry. `discountPercentage` is 0 when the product has no
   * discount, `imageUrl` is empty when it has no picture, and `expiryDate`
   * is absent for products that do not expire.
   */
  datatype Product = Product(
    id: string,
    barcode: string,
    name: string,
    category: string,
    buyPrice: real,
    sellPrice: real,
    discountPercentage: real,
    tva: real,
    stockQuantity: int,
    minStock: int,
    expiryDate: Option<int>,
    imageUrl: string)

  datatype ExpenseCategory = RENT | UTILITIES | SALARY | OTHER

  /** An operating expense; `caption` is the source's `label` (a reserved word here). */
  datatype Expense = Expense(id: string, caption: string, amount: real, category: ExpenseCategory, date: string)

  /**
   * A ticket line: a snapshot of the product taken when it was first scanned,
   * whose `sellPrice` is the price the customer pays per unit, and a quantity.
   */
  datatype CartItem = CartItem(item: Product, quantity: int) {
    function Id(): string {
      item.id
    }

    function LineTotal(): real {
      item.sellPrice * quantity as real
    }
  }

  datatype PaymentMethod = CASH | CARD | CHECK | CREDIT

  /**
   * A finalised ticket. `isSynced` is false both when the flag was never set
   * and when it was set to false; the two are read the same way everywhere.
   */
  datatype Sale = Sale(
    id: string,
    timestamp: string,
    items: seq<CartItem>,
    total: real,
    subtotal: real,
    taxAmount: real,
    taxStamp: real,
    paymentMethod: PaymentMethod,
    customerId: Option<string>,
    cashierId: string,
    isSynced: bool,
    pointsEarned: Option<int>)

  /** A customer of the credit book; `loyaltyPoints` may be missing on records stored by older versions. */
  datatype Customer = Customer(id: string, name: string, phone: string, creditBalance: real, loyaltyPoints: Option<int>)

  datatype Supplier = Supplier(id: string, name: string, contact: string, debt: real)

  /** A product is due for reordering when its stock is at or below its threshold. */
  predicate IsLowStock(p: Product) {
    p.stockQuantity <= p.minStock
  }

  /**
   * The product-list search of the till and of the stock screen: the
   * lower-cased name contains the lower-cased term, or the barcode contains
   * the term as typed.
   */
  predicate MatchesSearch(p: Product, search: string) {
    Contains(Lower(p.name), Lower(search)) || Contains(p.barcode, search)
  }

  /** An empty search term matches every product. */
  lemma EmptySearchMatches(p: Product)
    ensures MatchesSearch(p, "")
  {
    ContainsEmpty(Lower(p.name));
  }

  /** No two lines of the list are about the same product. */
  predicate DistinctIds(lines: seq<CartItem>) {
    forall i, j :: 0 <= i < j < |lines| ==> lines[i].Id() != lines[j].Id()
  }
}
