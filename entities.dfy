/**
 * The records exchanged between the services and the pages
 * (Product, User, Order, OrderItem) and the AI analysis shape.
 * Java `Long` ids are unbounded integers and `LocalDateTime`
 * values are instants on an integer clock.
 */
module Entities {
  import opened Wrappers

  type Id = int
  type Time = int

  datatype Product = Product(
    id: Id,
    name: string,
    description: string,
    price: real,
    category: string,
    stock: int,
    imageUrl: Option<string>,
    brand: Option<string>,
    rating: Option<real>,
    images: seq<string>)

  datatype User = User(
    id: Id,
    email: string,
    password: string,
    firstName: string,
    lastName: string,
    phoneNumber: string,
    address: string,
    createdAt: Time)

  datatype OrderItem = OrderItem(productId: Id, productName: string, quantity: int, price: real)

  /** `status` is nullable: a status update without a value stores null. */
  datatype Order = Order(
    id: Id,
    userId: Id,
    items: seq<OrderItem>,
    totalAmount: real,
    status: Option<string>,
    shippingAddress: string,
    createdAt: Time,
    updatedAt: Time)

  /** The recommendation shape: summary, pros, cons and a final recommendation. */
  datatype Analysis = Analysis(summary: string, pros: seq<string>, cons: seq<string>, recommendation: string)
}

/** An HTTP response as a Spring `ResponseEntity`: a status code and an optional body. */
module Http {
  import opened Wrappers

  datatype Response<T> = Response(status: int, body: Option<T>)

  const OK := 200
  const CREATED := 201
  const NO_CONTENT := 204
  const BAD_REQUEST := 400
  const NOT_FOUND := 404
  const INTERNAL_SERVER_ERROR := 500
  const SERVICE_UNAVAILABLE := 503
}
