/** The storefront's records (src/types/event.ts). Prices, quantities and
    available counts are whole numbers. */
module Types {
  import opened Prelude

  datatype Team = Team(name: string, flag: string)

  /** The optional home/away descriptor of a match. */
  datatype Teams = Teams(home: Team, away: Team)

  datatype TicketCategory = TicketCategory(
    id: string,
    name: string,
    price: int,
    currency: string,
    available: int,
    description: Option<string>)

  datatype Event = Event(
    id: string,
    title: string,
    description: string,
    date: string,
    time: string,
    venue: string,
    location: string,
    image: Option<string>,
    teams: Option<Teams>,
    categories: seq<TicketCategory>)

  /** One line of a cart: `quantity` tickets of one category at a unit
      price captured when the cart was built. */
  datatype CartItem = CartItem(eventId: string, categoryId: string, quantity: int, price: int)

  /** `'M-Pesa' | 'Card'` */
  datatype PaymentMethod = MPesa | Card

  datatype BillingDetails = BillingDetails(
    name: string,
    email: string,
    phone: string,
    paymentMethod: PaymentMethod)

  /** `'pending' | 'completed' | 'failed'` */
  datatype OrderStatus = Pending | Completed | Failed

  /** The shape an order takes; the pages never build one. */
  datatype Order = Order(
    id: string,
    eventId: string,
    items: seq<CartItem>,
    billingDetails: BillingDetails,
    total: int,
    status: OrderStatus,
    createdAt: string)
}
