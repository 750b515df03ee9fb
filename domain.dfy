/**
 * The backend's record types as the storefront client sees them.
 * Identifiers and amounts are the backend's unbounded naturals; images are
 * blob handles reduced to their direct URL.
 */
module Domain {
  import opened Wrappers

  /** Order status. `Other` stands for any value outside the five known
      ones that the backend might send; the views fall back for it. */
  datatype OrderStatus = Pending | Shipped | Delivered | Completed | Cancelled | Other(raw: string)

  datatype ProductCategory = Ring | Diamond | Bracelet | Headpiece

  datatype Material = Gold18K | Gold9K | Gold22K

  /** An uploaded image, reduced to the URL it is served from. */
  datatype Blob = Blob(url: string)

  datatype Product = Product(
    id: nat, name: string, description: string, stock: nat,
    category: ProductCategory, price: nat, material: Material, images: seq<Blob>)

  /** A product card's stock marker: "Out of Stock", or the number in stock. */
  datatype StockBadge = OutOfStock | InStock(count: nat)

  /** `stock === 0 ? "Out of Stock" : "<n> in stock"`: exactly one marker, and the count is the stock. */
  function StockBadgeOf(p: Product): (b: StockBadge)
    ensures b == OutOfStock <==> p.stock == 0
    ensures b.InStock? ==> b.count == p.stock && b.count > 0
  {
    if p.stock == 0 then OutOfStock else InStock(p.stock)
  }

  datatype CartItem = CartItem(productId: nat, quantity: nat)

  datatype Cart = Cart(items: seq<CartItem>)

  datatype OrderItem = OrderItem(productId: nat, quantity: nat, price: nat)

  datatype Order = Order(
    id: nat, status: OrderStatus, createdAt: int, totalAmount: nat,
    customerId: string, items: seq<OrderItem>)

  datatype CustomerProfile = CustomerProfile(id: string, name: string, email: string, address: string, phone: string)

  /** A polled record; `customer` may be missing in partially populated backend records. */
  datatype OrderWithCustomerDetails = OrderWithCustomerDetails(
    customer: Option<CustomerProfile>, order: Order, lastStatusUpdate: int, isNew: bool)

  datatype Visit = Visit(id: nat, page: string, device: string, timestamp: int, browser: string, sessionId: string, location: string)

  datatype Download = Download(
    id: nat, platform: string, device: string, version: string, timestamp: int,
    browser: string, sessionId: string, location: string)

  datatype UserProfile = UserProfile(name: string, email: string, address: string, phone: string)

  datatype BusinessContactInfo = BusinessContactInfo(
    bankAccount: string, ifscCode: string, storeAddress: string, gstNumber: string,
    description: string, email: string, storeName: string, phone: string)

  /** A file picked in the browser: its name, size in bytes and MIME type. */
  datatype File = File(name: string, size: nat, mimeType: string)

  /** One mebibyte, the unit of the upload limits. */
  const MiB: nat := 1024 * 1024

  /** The label of a status badge; an unknown status shows the pending entry. */
  function StatusLabel(s: OrderStatus): (caption: string)
    ensures caption == "Pending" <==> s.Pending? || s.Other?
  {
    match s
    case Pending => "Pending"
    case Completed => "Completed"
    case Cancelled => "Cancelled"
    case Shipped => "Shipped"
    case Delivered => "Delivered"
    case Other(_) => "Pending"
  }

  /** The display name of a category, shared by the catalogue and the admin product list. */
  function CategoryLabel(c: ProductCategory): string {
    match c
    case Ring => "Rings"
    case Headpiece => "Necklaces"
    case Bracelet => "Bracelets"
    case Diamond => "Lab Diamonds"
  }

  function MaterialLabel(m: Material): string {
    match m
    case Gold22K => "22K Gold"
    case Gold18K => "18K Gold"
    case Gold9K => "9K Gold"
  }
}
