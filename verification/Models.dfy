/** Wire-level enumerations shared by every service (pkg/models/models.go). */
module Models {
  // Identifiers are UUIDs in the database; only their equality matters here.
  type UserId = nat
  type OrderId = nat

  datatype Option<+T> = None | Some(value: T)

  datatype Leg = Transport | Equipment | Labor

  datatype OrderType =
    | TransportOnly
    | TransportWithOptions
    | EquipmentOnly
    | LaborOnly
    | UnknownType(name: string)

  datatype Status =
    | Draft
    | Published
    | Matched
    | Accepted
    | InProgress
    | LoadingInProgress
    | InTransit
    | Delivered
    | Completed
    | Cancelled
    | Disputed

  datatype PaymentMethod = Payme | Click | Uzcard | OtherMethod(name: string)

  datatype TxStatus = Held | Released | Refunded

  /** The authenticated caller of a handler: the `sub` claim and whether the role claim is admin. */
  datatype Caller = Caller(sub: UserId, admin: bool)

  // Every NUMERIC(14,0) column refuses values of more than fourteen digits.
  const NUMERIC_LIMIT: int := 100_000_000_000_000

  predicate FitsNumeric(x: int) {
    -NUMERIC_LIMIT < x < NUMERIC_LIMIT
  }

  /** The INTEGER columns are four bytes wide, narrower than the int of the program. */
  predicate FitsInteger(x: int) {
    -0x8000_0000 <= x < 0x8000_0000
  }
}
