/**
 * The three tables the dashboard works on, one record type per row.
 * Money and quantities are integers: every value the dashboard
 * produces comes from integer prices and quantities.
 */
module Records {

  /**
   * A calendar day, written as the integer yyyymmdd (2025-08-01 is
   * 20250801). For real calendar days the order of these integers is
   * the order of the days, and it agrees with comparing the ISO
   * strings "YYYY-MM-DD" character by character.
   */
  type Date = int

  /** A row of the products table. */
  datatype Product = Product(
    id: int,
    title: string,
    category: string,
    price: int,
    unitsSold: int,
    revenue: int,
    date: Date)

  /** A row of the orders table: one order line for one product. */
  datatype Order = Order(
    orderId: string,
    product: string,
    quantity: int,
    price: int,
    amount: int,
    date: Date)

  /** A row of the customers table; `orders` is the customer's order count. */
  datatype Customer = Customer(
    id: int,
    name: string,
    email: string,
    orders: int,
    firstOrder: Date)
}
