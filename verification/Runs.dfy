/**
 * Runs of the payment store. Each transaction is one step: the writer lock serialises transactions, and a commit
 * is all or nothing. A crash is simply a step that never comes, so every prefix of a run is a run.
 */
module Runs {
  import opened Wrappers
  import opened Domain
  import opened Tables
  import opened Payments
  import opened Confirmations

  /** Capture and refund carry the row their session holds, which may be any version committed so far. */
  datatype Step =
    | AuthorizeStep(
        key: Id, merchantReference: Id, amount: int, currency: Currency, token: Token,
        now: Time, freshId: Id, freshReference: Id, failure: Option<FailurePoint>)
    | CaptureStep(key: Id, paymentId: Id, view: Option<Payment>, now: Time, failure: Option<FailurePoint>)
    | RefundStep(
        key: Id, paymentId: Id, refund: int, view: Option<Payment>, now: Time, failure: Option<FailurePoint>)
    | CancelStep(key: Id, paymentId: Id, now: Time, failure: Option<FailurePoint>)
    | AcceptStep(command: ConfirmationCommand, now: Time)
    | CompleteStep(confirmationId: Id)
    | SweepStep(now: Time, limit: int)
  {
    predicate IsRequest() {
      AuthorizeStep? || CaptureStep? || RefundStep? || CancelStep?
    }

    function Request(): Request
      requires IsRequest()
    {
      match this
      case AuthorizeStep(_, merchantReference, amount, currency, token, _, _, _, _) =>
        AuthorizeRequest(merchantReference, amount, currency, token)
      case CaptureStep(_, paymentId, _, _, _) => CaptureRequest(paymentId)
      case RefundStep(_, paymentId, refund, _, _, _) => RefundRequest(paymentId, refund)
      case CancelStep(_, paymentId, _, _) => CancelRequest(paymentId)
    }
  }

  /** What a payment request commits and answers. */
  function Respond(t: Tables, s: Step): Reply
    requires s.IsRequest()
  {
    match s
    case AuthorizeStep(key, _, _, _, _, now, freshId, freshReference, failure) =>
      AuthorizePayment(t, key, s.Request(), now, freshId, freshReference, failure)
    case CaptureStep(key, _, view, now, failure) => ChangePayment(t, key, s.Request(), view, now, failure)
    case RefundStep(key, _, _, view, now, failure) => ChangePayment(t, key, s.Request(), view, now, failure)
    case CancelStep(key, paymentId, now, failure) => CancelPayment(t, key, paymentId, now, failure)
  }

  ghost function Apply(t: Tables, s: Step): Tables {
    match s
    case AcceptStep(command, now) => Accept(t, command, now).tables
    case CompleteStep(id) => Complete(t, id).tables
    case SweepStep(now, limit) => ExpireDue(t, now, limit).tables
    case _ => Respond(t, s).tables
  }

  /** The row was once committed as a version of this payment. */
  ghost predicate Seen(t: Tables, id: Id, p: Payment) {
    exists e :: e in t.outbox && e.paymentId == id && e.snapshot == p
  }

  /** A session can only hold a row that some transaction committed. */
  ghost predicate Honest(t: Tables, s: Step) {
    (s.CaptureStep? || s.RefundStep?) && s.view.Some? ==> Seen(t, s.paymentId, s.view.value)
  }

  ghost function Run(t: Tables, steps: seq<Step>): Tables
    decreases |steps|
  {
    if steps == [] then t else Run(Apply(t, steps[0]), steps[1..])
  }

  ghost predicate HonestRun(t: Tables, steps: seq<Step>)
    decreases |steps|
  {
    steps == [] || (Honest(t, steps[0]) && HonestRun(Apply(t, steps[0]), steps[1..]))
  }

  /** A run of two parts is a run of the first followed by a run of the second. */
  lemma {:induction false} RunSplits(t: Tables, first: seq<Step>, second: seq<Step>)
    ensures Run(t, first + second) == Run(Run(t, first), second)
    ensures HonestRun(t, first + second) <==> HonestRun(t, first) && HonestRun(Run(t, first), second)
    decreases |first|
  {
    if first == [] {
      assert first + second == second;
    } else {
      assert (first + second)[1..] == first[1..] + second;
      RunSplits(Apply(t, first[0]), first[1..], second);
    }
  }
}
