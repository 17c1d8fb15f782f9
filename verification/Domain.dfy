/** The pure payment lifecycle: statuses, balances and the five transitions. */
module Domain {
  import opened Wrappers

  datatype Currency = USD | JPY

  datatype PaymentStatus =
    | Authorized
    | AwaitingPayment
    | Declined
    | Captured
    | PartiallyRefunded
    | Refunded
    | Cancelled
    | Expired

  datatype PaymentFlow = Synchronous | AsynchronousConfirmation

  datatype DeclineReason =
    | InsufficientFunds
    | LimitExceeded
    | ExpiredPaymentMethod
    | VerificationFailed
    | InvalidPaymentMethod
    | UnknownReason

  /** Test tokens: one approval, seven declines, and the delayed-payment token. */
  datatype Token =
    | Approve
    | Decline
    | DeclineInsufficientFunds
    | DeclineLimitExceeded
    | DeclineExpired
    | DeclineVerification
    | DeclineInvalid
    | DeclineUnknown
    | AwaitConfirmation

  datatype DomainError =
    | NotAllowed(status: PaymentStatus)
    | NotPositive
    | RefundExceeded(requested: int, available: int)
    | BadBalances

  datatype PaymentState = PaymentState(status: PaymentStatus, authorized: int, captured: int, refunded: int)
  {
    /** What the constructor of the state checks. */
    predicate Valid() {
      0 <= refunded <= captured <= authorized
    }

    function Refundable(): int {
      captured - refunded
    }
  }

  type Outcome = Result<PaymentState, DomainError>

  /** Constructs a state, rejecting balances that are negative or out of order. */
  function Build(status: PaymentStatus, authorized: int, captured: int, refunded: int): Outcome {
    var s := PaymentState(status, authorized, captured, refunded);
    if s.Valid() then Ok(s) else Err(BadBalances)
  }

  function ReasonOf(token: Token): DeclineReason
    requires token != Approve && token != AwaitConfirmation
  {
    match token
    case DeclineInsufficientFunds => InsufficientFunds
    case DeclineLimitExceeded => LimitExceeded
    case DeclineExpired => ExpiredPaymentMethod
    case DeclineVerification => VerificationFailed
    case DeclineInvalid => InvalidPaymentMethod
    case _ => UnknownReason
  }

  datatype Authorization = Authorization(status: PaymentStatus, authorized: int, reason: Option<DeclineReason>)

  function Authorize(amount: int, token: Token): Result<Authorization, DomainError>
    requires token != AwaitConfirmation
  {
    if amount <= 0 then Err(NotPositive)
    else if token == Approve then Ok(Authorization(Authorized, amount, None))
    else Ok(Authorization(Declined, 0, Some(ReasonOf(token))))
  }

  function Capture(s: PaymentState): Outcome {
    if s.status != Authorized then Err(NotAllowed(s.status))
    else Build(Captured, s.authorized, s.authorized, 0)
  }

  function CaptureConfirmation(s: PaymentState, amount: int): Outcome {
    if s.status != AwaitingPayment then Err(NotAllowed(s.status))
    else if amount <= 0 then Err(NotPositive)
    else Build(Captured, amount, amount, 0)
  }

  function Expire(s: PaymentState): Outcome {
    if s.status != AwaitingPayment then Err(NotAllowed(s.status))
    else Build(Expired, s.authorized, s.captured, s.refunded)
  }

  function Cancel(s: PaymentState): Outcome {
    if s.status != Authorized && s.status != AwaitingPayment then Err(NotAllowed(s.status))
    else Build(Cancelled, s.authorized, 0, 0)
  }

  function Refund(s: PaymentState, amount: int): Outcome {
    if s.status != Captured && s.status != PartiallyRefunded then Err(NotAllowed(s.status))
    else if amount <= 0 then Err(NotPositive)
    else if amount > s.Refundable() then Err(RefundExceeded(amount, s.Refundable()))
    else
      var refunded := s.refunded + amount;
      Build(if refunded == s.captured then Refunded else PartiallyRefunded, s.authorized, s.captured, refunded)
  }

  datatype Action =
    | DoCapture
    | DoCancel
    | DoRefund(amount: int)
    | DoConfirm(amount: int)
    | DoExpire

  function Transition(s: PaymentState, a: Action): Outcome {
    match a
    case DoCapture => Capture(s)
    case DoCancel => Cancel(s)
    case DoRefund(amount) => Refund(s, amount)
    case DoConfirm(amount) => CaptureConfirmation(s, amount)
    case DoExpire => Expire(s)
  }

  /** Funds have been captured, whether or not some were given back. */
  predicate Paid(status: PaymentStatus) {
    status == Captured || status == PartiallyRefunded || status == Refunded
  }

  function RunActions(s: PaymentState, actions: seq<Action>): Outcome
    decreases |actions|
  {
    if actions == [] then Ok(s)
    else
      match Transition(s, actions[0])
      case Err(e) => Err(e)
      case Ok(next) => RunActions(next, actions[1..])
  }

  function Refunds(actions: seq<Action>): int {
    if actions == [] then 0
    else (if actions[0].DoRefund? then actions[0].amount else 0) + Refunds(actions[1..])
  }

  /**
   * Over every run of transitions that succeeds from a valid paid state: only refunds happen, the refunded
   * balance grows by exactly what was refunded and never passes the captured amount, the captured amount
   * never moves, and the status says whether anything is left.
   */
  lemma {:induction false} PaidRunsOnlyRefund(s: PaymentState, actions: seq<Action>)
    requires s.Valid() && Paid(s.status)
    requires s.status == Refunded <==> s.refunded == s.captured
    requires RunActions(s, actions).Ok?
    ensures forall i :: 0 <= i < |actions| ==> actions[i].DoRefund? && actions[i].amount > 0
    ensures
      var t := RunActions(s, actions).value;
      && t.captured == s.captured && t.authorized == s.authorized
      && t.refunded == s.refunded + Refunds(actions) <= s.captured
      && Paid(t.status)
      && (t.status == Refunded <==> t.refunded == t.captured)
    decreases |actions|
  {
    if actions != [] {
      PaidRunsOnlyRefund(Transition(s, actions[0]).value, actions[1..]);
      assert forall i :: 0 < i < |actions| ==> actions[i] == actions[1..][i - 1];
    }
  }

  // ----- when each operation succeeds -------------------------------------------------------------------------

  /** A state is constructed exactly when its balances are in order. */
  lemma BuildExactly(status: PaymentStatus, authorized: int, captured: int, refunded: int)
    ensures 0 <= refunded && refunded <= captured && captured <= authorized <==>
            Build(status, authorized, captured, refunded) == Ok(PaymentState(status, authorized, captured, refunded))
    ensures refunded < 0 || refunded > captured || captured > authorized <==>
            Build(status, authorized, captured, refunded) == Err(BadBalances)
  {
  }

  /** A refund succeeds exactly up to what is left, and ends as refunded exactly when it takes all that is left. */
  lemma RefundExactly(s: PaymentState, n: int)
    requires s.Valid()
    ensures Refund(s, n).Ok? <==> s.status in {Captured, PartiallyRefunded} && 0 < n <= s.captured - s.refunded
    ensures Refund(s, n).Ok? ==>
              var refunded := s.refunded + n;
              Refund(s, n).value ==
              s.(status := if refunded == s.captured then Refunded else PartiallyRefunded, refunded := refunded)
    ensures s.status !in {Captured, PartiallyRefunded} <==> Refund(s, n) == Err(NotAllowed(s.status))
    ensures s.status in {Captured, PartiallyRefunded} && n <= 0 <==> Refund(s, n) == Err(NotPositive)
    ensures s.status in {Captured, PartiallyRefunded} && 0 < n && n > s.captured - s.refunded <==>
            Refund(s, n) == Err(RefundExceeded(n, s.captured - s.refunded))
  {
  }

  /** A capture succeeds exactly for an authorized payment, for all that was authorized. */
  lemma CaptureExactly(s: PaymentState)
    requires s.Valid()
    ensures s.status == Authorized <==> Capture(s) == Ok(PaymentState(Captured, s.authorized, s.authorized, 0))
    ensures s.status != Authorized <==> Capture(s) == Err(NotAllowed(s.status))
  {
  }

  /** Only what is not paid yet can be cancelled. */
  lemma CancelExactly(s: PaymentState)
    requires s.Valid()
    ensures s.status in {Authorized, AwaitingPayment} <==> Cancel(s) == Ok(PaymentState(Cancelled, s.authorized, 0, 0))
    ensures s.status !in {Authorized, AwaitingPayment} <==> Cancel(s) == Err(NotAllowed(s.status))
  {
  }

  /** Only a waiting payment is captured by a confirmation, for the confirmed amount. */
  lemma ConfirmExactly(s: PaymentState, n: int)
    requires s.Valid()
    ensures s.status == AwaitingPayment && n > 0 <==> CaptureConfirmation(s, n) == Ok(PaymentState(Captured, n, n, 0))
    ensures s.status != AwaitingPayment <==> CaptureConfirmation(s, n) == Err(NotAllowed(s.status))
    ensures s.status == AwaitingPayment && n <= 0 <==> CaptureConfirmation(s, n) == Err(NotPositive)
  {
  }

  /** Only a waiting payment expires, with its balances as they are. */
  lemma ExpireExactly(s: PaymentState)
    requires s.Valid()
    ensures s.status == AwaitingPayment <==> Expire(s) == Ok(s.(status := Expired))
    ensures s.status != AwaitingPayment <==> Expire(s) == Err(NotAllowed(s.status))
  {
  }

  /** Only the approving token authorizes, and then the whole amount; each other token has its own reason. */
  lemma AuthorizeExactly(n: int, token: Token)
    requires token != AwaitConfirmation
    ensures n <= 0 <==> Authorize(n, token) == Err(NotPositive)
    ensures n > 0 && token == Approve <==> Authorize(n, token) == Ok(Authorization(Authorized, n, None))
    ensures n > 0 && token == DeclineInsufficientFunds <==>
            Authorize(n, token) == Ok(Authorization(Declined, 0, Some(InsufficientFunds)))
    ensures n > 0 && token == DeclineLimitExceeded <==>
            Authorize(n, token) == Ok(Authorization(Declined, 0, Some(LimitExceeded)))
    ensures n > 0 && token == DeclineExpired <==>
            Authorize(n, token) == Ok(Authorization(Declined, 0, Some(ExpiredPaymentMethod)))
    ensures n > 0 && token == DeclineVerification <==>
            Authorize(n, token) == Ok(Authorization(Declined, 0, Some(VerificationFailed)))
    ensures n > 0 && token == DeclineInvalid <==>
            Authorize(n, token) == Ok(Authorization(Declined, 0, Some(InvalidPaymentMethod)))
    ensures n > 0 && token in {Decline, DeclineUnknown} <==>
            Authorize(n, token) == Ok(Authorization(Declined, 0, Some(UnknownReason)))
  {
  }

  /**
   * A series of refunds succeeds exactly when every part is positive and their sum is no more than what is left, and
   * it ends with that sum refunded, as one refund of the sum would.
   */
  lemma {:induction false} RefundsAddUp(s: PaymentState, actions: seq<Action>)
    requires s.Valid() && Paid(s.status)
    requires s.status == Refunded <==> s.refunded == s.captured
    requires actions != [] && forall i :: 0 <= i < |actions| ==> actions[i].DoRefund?
    ensures RunActions(s, actions).Ok? <==>
              (forall i :: 0 <= i < |actions| ==> actions[i].amount > 0) && Refunds(actions) <= s.captured - s.refunded
    ensures RunActions(s, actions).Ok? ==>
              var refunded := s.refunded + Refunds(actions);
              && RunActions(s, actions) ==
                 Ok(s.(status := if refunded == s.captured then Refunded else PartiallyRefunded, refunded := refunded))
              && RunActions(s, actions) == Refund(s, Refunds(actions))
    decreases |actions|
  {
    var first, rest := actions[0], actions[1..];
    assert forall i :: 0 < i < |actions| ==> actions[i] == rest[i - 1];
    assert forall i :: 0 <= i < |rest| ==> rest[i] == actions[i + 1];
    RefundExactly(s, first.amount);
    RefundExactly(s, Refunds(actions));
    if rest != [] && Transition(s, first).Ok? {
      RefundsAddUp(Transition(s, first).value, rest);
    }
    if forall i :: 0 <= i < |actions| ==> actions[i].amount > 0 {
      PositiveRefunds(rest);
    }
  }

  lemma {:induction false} PositiveRefunds(actions: seq<Action>)
    requires forall i :: 0 <= i < |actions| ==> actions[i].DoRefund? && actions[i].amount > 0
    ensures Refunds(actions) >= |actions|
  {
    if actions != [] {
      PositiveRefunds(actions[1..]);
    }
  }
}
