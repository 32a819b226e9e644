/** The enumerations of `app/models/enums.py` that the model branches on. */
module Enums {
  datatype TicketStatus = Open | Closed
  datatype OrderStatus = Draft | Booked | PickedUp | Delivered
  datatype Severity = P1 | P2 | P3
  datatype TrustState = Confident | Conditional | Uncertain | Escalate
}
