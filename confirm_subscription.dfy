/** `POST /api/confirm-subscription`: after the payment provider reports the
    checkout session as paid, mark the session user as subscribed. The
    provider's answer is an input. */
module ConfirmSubscription {
  import opened Common
  import opened Json
  import opened Store

  /** `stripe.checkout.sessions.retrieve(sessionId)`: it throws, or yields
      the session's `payment_status`. */
  datatype Payment = RetrieveFailed(message: string) | Retrieved(paymentStatus: string)

  const PaymentNotConfirmed := "Payment not confirmed"

  /** The store's message when `update` finds no row for the email. */
  const RecordNotFound := "Record to update not found."

  /** Every error leaves the store as it was. An unreadable body fails first
      (500), then a missing session email (401), then a failed retrieval
      (500, its message); an unpaid status is 400; a paid one sets
      `isSubscribed` on the session email's row only, or fails with 500 when
      the update throws or finds no row. The handler makes no lookup, so
      only `WriteFails` (the update) applies; other `fault` values are
      ignored. */
  method Confirm(store: Database, body: Body, sessionEmail: Option<string>, payment: Payment, fault: Fault)
    returns (r: Reply<bool>)
    requires store.Valid()
    modifies store
    ensures store.Valid()
    ensures r.Fail? ==> store.State() == old(store.State())
    ensures body.Unparsable? ==> r == Fail(500, body.message)
    ensures body == Parsed(JNull) ==> r == Fail(500, NullBodyMessage)
    ensures Destructurable(body) && !HasEmail(sessionEmail) ==> r == Fail(401, NotAuthenticated)
    ensures Destructurable(body) && HasEmail(sessionEmail) ==>
              match payment
              case RetrieveFailed(message) => r == Fail(500, message)
              case Retrieved(status) =>
                if status != "paid" then r == Fail(400, PaymentNotConfirmed)
                else if fault.WriteFails? then r == Fail(500, fault.message)
                else if FindByEmail(old(store.users), sessionEmail.value).None? then r == Fail(500, RecordNotFound)
                else r == Ok(true)
    ensures r.Ok? ==> && HasEmail(sessionEmail) && payment == Retrieved("paid")
                      && store.State() == old(store.State()).(users := MarkSubscribed(old(store.users), sessionEmail.value))
  {
    if body.Unparsable? {
      return Fail(500, body.message);
    }
    if body.value == JNull {
      return Fail(500, NullBodyMessage);
    }
    if !HasEmail(sessionEmail) {
      return Fail(401, NotAuthenticated);
    }
    if payment.RetrieveFailed? {
      return Fail(500, payment.message);
    }
    if payment.paymentStatus == "paid" {
      if fault.WriteFails? {
        return Fail(500, fault.message);
      }
      var updated := store.UpdateSubscribed(sessionEmail.value);
      if updated.None? {
        return Fail(500, RecordNotFound);
      }
      return Ok(true);
    }
    return Fail(400, PaymentNotConfirmed);
  }

  /** What a paid confirmation does to the table: the session email's row
      gains `isSubscribed`, every other row and field is as before, and
      confirming again changes nothing more. */
  lemma PaidConfirmationEffect(db: Db, email: string)
    requires WellFormed(db) && FindByEmail(db.users, email).Some?
    ensures var after := MarkSubscribed(db.users, email);
            && FindByEmail(after, email) == Some(FindByEmail(db.users, email).value.(isSubscribed := true))
            && (forall i :: 0 <= i < |db.users| && db.users[i].email != email ==> after[i] == db.users[i])
            && MarkSubscribed(after, email) == after
  {
    MarkSubscribedFindsRow(db.users, email);
    MarkSubscribedSpec(db, email);
  }
}
