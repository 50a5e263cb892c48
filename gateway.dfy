/**
 * The decision logic of the mock payment gateway (portal-api.js, lines 44-65).
 *
 * The source waits a random 800-1799 ms, draws again, and resolves its
 * Promise with an outcome record.  Here the two `Math.random()` draws are
 * passed in as permille integers `floor(r * 1000)`, the clock as a
 * millisecond count and the ISO timestamp as opaque text; the Promise becomes
 * a `Settlement`: the delay it waits and the value it resolves with.
 */
module Gateway {
  import opened Wrappers
  import opened Identifiers
  import opened Storage

  /** A property of the argument object as JavaScript sees it: missing, `null`, or a scalar. */
  datatype Arg = Undefined | Null | Given(field: Field)

  /** The destructured argument `{ method = 'bank', account, amount, reference }`. */
  datatype PaymentRequest = PaymentRequest(
    paymentMethod: Arg,
    account: Arg,
    amount: Arg,
    reference: Arg)

  /** The object the Promise resolves with. */
  datatype PaymentOutcome = PaymentOutcome(
    success: bool,
    provider: Arg,
    account: Arg,
    amount: Arg,
    reference: Arg,
    txId: string,
    time: string,
    message: string)

  /** A resolved call: how long it waited and what it resolved with. */
  datatype Settlement = Settlement(delayMs: nat, outcome: PaymentOutcome)

  /** Destructuring `undefined` or `null` throws a TypeError before any Promise exists. */
  datatype GatewayError = CannotDestructure

  const SuccessMessage: string := "Payment processed (mock)"
  const FailureMessage: string := "Mock gateway failed"

  const Bank: Arg := Given(Text("bank"))
  const Momo: Arg := Given(Text("momo"))

  /** The payment method after the destructuring default: only `undefined` becomes `'bank'`. */
  function MethodOf(req: PaymentRequest): (m: Arg)
    ensures m != Undefined
    ensures req.paymentMethod == Undefined ==> m == Bank
    ensures req.paymentMethod != Undefined ==> m == req.paymentMethod
  {
    if req.paymentMethod == Undefined then Bank else req.paymentMethod
  }

  /** `800 + Math.floor(Math.random() * 1000)` for the permille draw `draw`. */
  function DelayMs(draw: nat): (ms: nat)
    requires draw < 1000
    ensures 800 <= ms <= 1799
    ensures ms - 800 == draw
  {
    800 + draw
  }

  /**
   * The success chance in permille: 0.90 for `'bank'`, 0.92 for `'momo'` and
   * 0.99 for anything else, compared with `===`.
   */
  function ThresholdPermille(paymentMethod: Arg): (t: nat)
    ensures 900 <= t <= 990
  {
    if paymentMethod == Bank then 900 else if paymentMethod == Momo then 920 else 990
  }

  /**
   * `ok = Math.random() < chance` for the permille draw `draw`: every draw
   * below 900 approves whatever the method, and none from 990 on does.
   */
  predicate Approves(paymentMethod: Arg, draw: nat): (ok: bool)
    ensures draw < 900 ==> ok
    ensures draw >= 990 ==> !ok
  {
    draw < ThresholdPermille(paymentMethod)
  }

  /**
   * `mockPaymentGateway(arg)`: `None` is a missing or `null` argument, which
   * throws; any object resolves, after `800 + delayDraw` ms, with the outcome.
   * Nothing rejects the Promise.
   */
  function MockPaymentGateway(arg: Option<PaymentRequest>, delayDraw: nat, chanceDraw: nat, now: nat, time: string)
    : (r: Result<Settlement, GatewayError>)
    requires delayDraw < 1000 && chanceDraw < 1000
    ensures r.Err? <==> arg == None
    ensures r.Err? ==> r.error == CannotDestructure
    ensures r.Ok? ==>
      var req, s := arg.value, r.value;
      && s.delayMs == 800 + delayDraw
      && (s.outcome.success <==> Approves(MethodOf(req), chanceDraw))
      && s.outcome.provider == MethodOf(req)
      && s.outcome.account == req.account
      && s.outcome.amount == req.amount
      && s.outcome.reference == req.reference
      && s.outcome.txId == Uid(now, "tx")
      && s.outcome.time == time
      && (s.outcome.message == SuccessMessage <==> s.outcome.success)
      && (s.outcome.message == FailureMessage <==> !s.outcome.success)
  {
    match arg
    case None => Err(CannotDestructure)
    case Some(req) =>
      var ok := Approves(MethodOf(req), chanceDraw);
      Ok(Settlement(
        DelayMs(delayDraw),
        PaymentOutcome(
          ok, MethodOf(req), req.account, req.amount, req.reference,
          Uid(now, "tx"), time,
          if ok then SuccessMessage else FailureMessage)))
  }

  /** The three thresholds of the source, bank being the default method and `null` an "other" one. */
  lemma ThresholdsByMethod(req: PaymentRequest, other: Arg)
    requires other != Bank && other != Momo
    ensures ThresholdPermille(Bank) == 900
    ensures ThresholdPermille(Momo) == 920
    ensures ThresholdPermille(other) == 990
    ensures ThresholdPermille(Null) == 990
    ensures req.paymentMethod == Undefined ==> ThresholdPermille(MethodOf(req)) == 900
  {
  }

  /** The permille draw answers `r < t / 1000` exactly as the real draw `r` does. */
  lemma PermilleDrawIsExact(r: real, t: nat)
    requires 0.0 <= r < 1.0
    ensures 0 <= (r * 1000.0).Floor < 1000
    ensures r < t as real / 1000.0 <==> (r * 1000.0).Floor < t
  {
  }

  /** The draws `0, 1, ..., n - 1`. */
  function Below(n: nat): (r: set<nat>)
    ensures forall d: nat :: d in r <==> d < n
    ensures |r| == n
  {
    if n == 0 then {} else Below(n - 1) + {n - 1}
  }

  /**
   * Of the 1000 equally likely draws, exactly `ThresholdPermille(paymentMethod)`
   * approve the payment: success rates of 90%, 92% and 99%.
   */
  lemma SuccessRate(paymentMethod: Arg)
    ensures |set d: nat | d < 1000 && Approves(paymentMethod, d)| == ThresholdPermille(paymentMethod)
  {
    var t := ThresholdPermille(paymentMethod);
    assert (set d: nat | d < 1000 && Approves(paymentMethod, d)) == Below(t);
  }

  /** Of the 1000 equally likely delay draws, each delay from 800 to 1799 ms comes from exactly one. */
  lemma DelayUniform(ms: nat)
    requires 800 <= ms <= 1799
    ensures (set d: nat | d < 1000 && DelayMs(d) == ms) == {ms - 800}
  {
  }
}
