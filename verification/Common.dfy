/** Small shared vocabulary: optional values, outcomes and the order statuses. */
module Common {

  datatype Option<+T> = None | Some(value: T) {
    function GetOr(default: T): T {
      if Some? then value else default
    }
  }

  /** The statuses of an order that the modelled services read or write. */
  datatype OrderStatus = Pending | Ongoing | Completed | Cancelled
}
