/** The records, screens and constants shared by every part of the order wizard. */
module Types {

  /** One carpet: the dimensions are the raw text of the two inputs, in centimetres. */
  datatype Carpet = Carpet(id: string, length: string, width: string)

  /** The price summary shown on every screen. */
  datatype Totals = Totals(
    totalArea: real,
    totalPrice: real,
    isFreeShipping: bool,
    freeShippingThreshold: real,
    progress: real)

  /** The five screens of the wizard; exactly one is shown at a time. */
  datatype AppScreen = Calculator | Location | Scheduling | Observations | Success

  /** The customer's contact, address, pickup date and notes. */
  datatype SchedulingData = SchedulingData(
    fullName: string,
    phone: string,
    email: string,
    address: string,
    date: string,
    observations: string)

  /** Price of one square metre of carpet, in lei. */
  const PricePerSqm: real := 20.0

  /** Order price from which shipping is free, in lei. */
  const FreeShippingThreshold: real := 100.0

  /** Dates the calendar never offers, as `YYYY-MM-DD`. */
  const BlockedDates: seq<string> := ["2025-05-01", "2025-12-25", "2025-12-26", "2025-01-01"]
}
