/**
 The payment service's decision: authorise up to a limit, record, publish what was authorised.
 */
module Payments {
  import opened Faults

  const MAX_PAYMENT_AMOUNT: int := 100_000

  datatype Status = Authorized | Declined

  datatype Payment = Payment(id: string, orderID: string, transactionID: string, amount: int, status: Status)

  datatype Error = InvalidAmount | StoreFailed

  datatype Result = Ok(payment: Payment) | Err(error: Error)

  function Verdict(amount: int): Status {
    if amount > MAX_PAYMENT_AMOUNT then Declined else Authorized
  }

  class PaymentUseCase {
    var rows: seq<Payment>
    var published: seq<Payment>
    const hasPublisher: bool

    constructor (hasPublisher: bool)
      ensures rows == [] && published == [] && this.hasPublisher == hasPublisher
    {
      rows, published, this.hasPublisher := [], [], hasPublisher;
    }

    /** `AuthorizePayment`: ids are drawn by the caller; a failing publisher is swallowed.
        Money is recorded before anything is announced, and only authorised money is announced. */
    method AuthorizePayment(orderID: string, amount: int, id: string, transactionID: string, insert: Fault, publishes: bool)
        returns (result: Result)
      modifies this
      ensures result.Ok? <==> amount > 0 && insert == NoFault
      ensures result.Ok? ==>
                && result.payment == Payment(id, orderID, transactionID, amount, if amount <= 100_000 then Authorized else Declined)
                && rows == old(rows) + [result.payment]
                && published == old(published) + if result.payment.status == Authorized && hasPublisher && publishes then [result.payment] else []
      ensures result.Err? ==>
                && published == old(published)
                && rows == old(rows) + if amount > 0 && insert == AppliedWithError then [Payment(id, orderID, transactionID, amount, if amount <= 100_000 then Authorized else Declined)] else []
      ensures result == Err(InvalidAmount) <==> amount <= 0
    {
      if amount <= 0 {
        return Err(InvalidAmount);
      }
      var status := Authorized;
      if amount > MAX_PAYMENT_AMOUNT {
        status := Declined;
      }
      var payment := Payment(id, orderID, transactionID, amount, status);
      if insert != NotApplied {
        rows := rows + [payment];
      }
      if insert != NoFault {
        return Err(StoreFailed);
      }
      if payment.status == Authorized && hasPublisher {
        if publishes {
          published := published + [payment];
        }
      }
      return Ok(payment);
    }
  }
}
