/** The storefront's records (types.ts). A JavaScript `null` or an absent
    optional property is `None`; every string is a `seq<char>` and every
    JavaScript number used here is an integer. */
module Types {

  datatype Option<+T> = None | Some(value: T)

  /** The four platforms; `Key()` is the enum's string value. */
  datatype PlatformId = Tiktok | Youtube | Instagram | Facebook
  {
    function Key(): string {
      match this
      case Tiktok => "tiktok"
      case Youtube => "youtube"
      case Instagram => "instagram"
      case Facebook => "facebook"
    }
  }

  datatype BoostType = Followers | Likes | Views | Comments | Favourites | Subscribers
  {
    function Key(): string {
      match this
      case Followers => "Followers"
      case Likes => "Likes"
      case Views => "Views"
      case Comments => "Comments"
      case Favourites => "Favorites"
      case Subscribers => "Subscribers"
    }
  }

  /** The wizard's in-progress configuration. */
  datatype OrderState = OrderState(
    platform: Option<PlatformId>,
    boostType: Option<BoostType>,
    quantity: Option<string>,
    link: string,
    whatsapp: string,
    note: string,
    price: int)

  /** One line of the cart; `price` is the unit price frozen when it was added. */
  datatype CartItem = CartItem(
    id: string,
    platform: PlatformId,
    boostType: BoostType,
    quantityLabel: string,
    link: string,
    whatsapp: string,
    note: Option<string>,
    price: int,
    count: int)

  datatype UserRole = Customer | Admin

  datatype User = User(
    id: string,
    email: string,
    phone: string,
    password: Option<string>,
    role: UserRole,
    name: Option<string>)

  datatype OrderStatus = Pending | Processing | Completed | Cancelled
  {
    function Key(): string {
      match this
      case Pending => "Pending"
      case Processing => "Processing"
      case Completed => "Completed"
      case Cancelled => "Cancelled"
    }
  }

  /** The only payment method is 'Ez Cash' (the field `method` is `payMethod` here, `method` being a keyword). */
  datatype PaymentMethod = EzCash
  {
    function Key(): string { "Ez Cash" }
  }

  datatype PaymentDetails = PaymentDetails(
    payMethod: PaymentMethod,
    senderPhone: string,
    referenceNumber: Option<string>,
    receiptImage: Option<string>)

  datatype StoredOrder = StoredOrder(
    orderId: string,
    customerId: string,
    customerContact: string,
    orderDate: string,
    items: seq<CartItem>,
    totalAmount: int,
    status: OrderStatus,
    payment: PaymentDetails,
    adminNote: Option<string>)
}
