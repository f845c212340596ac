/** The fixed-payment (annuity) loan formula that the source writes out in
    full wherever a bond payment is needed, together with an independent
    reference: the month-by-month balance of a loan that accrues interest and
    is paid down by a fixed payment. */
module Amortization {
  import opened Wrappers
  import opened Numerics

  /** The ways the payment formula fails in the source. */
  datatype PaymentError =
    | MissingRateOrTerm   // ValueError: rate or term is None
    | DivisionByZero      // ZeroDivisionError in the formula

  /** The payment for `loan` over `payments` months at `monthlyRate`:
      `loan / n` at a zero rate, else `loan * r(1+r)^n / ((1+r)^n - 1)`. */
  function Annuity(loan: real, monthlyRate: real, payments: nat): (r: Result<real, PaymentError>)
    ensures monthlyRate == 0.0 ==> (r.Ok? <==> payments > 0)
    ensures monthlyRate == 0.0 && payments > 0 ==> r.value * payments as real == loan
    ensures monthlyRate != 0.0 ==> (r.Ok? <==> Pow(1.0 + monthlyRate, payments) != 1.0)
    ensures r.Err? ==> r.error == DivisionByZero
  {
    if monthlyRate == 0.0 then
      if payments == 0 then Err(DivisionByZero) else Ok(loan / payments as real)
    else
      var growth := Pow(1.0 + monthlyRate, payments);
      if growth - 1.0 == 0.0 then Err(DivisionByZero)
      else Ok(loan * (monthlyRate * growth) / (growth - 1.0))
  }

  /** Reference definition: the balance after k monthly payments. */
  function Balance(loan: real, monthlyRate: real, payment: real, k: nat): real {
    if k == 0 then loan else Balance(loan, monthlyRate, payment, k - 1) * (1.0 + monthlyRate) - payment
  }

  /** One month of the closed form: if r*b matches it at g, the next balance
      b' = b(1 + r) - payment matches it at g' = (1 + r)g. */
  lemma ClosedFormStep(loan: real, r: real, payment: real, g: real, b: real, g': real, b': real)
    requires r * b == loan * r * g - payment * (g - 1.0)
    requires g' == (1.0 + r) * g && b' == b * (1.0 + r) - payment
    ensures r * b' == loan * r * g' - payment * (g' - 1.0)
  {
    var x := r * b;
    calc {
      r * (b * (1.0 + r) - payment);
      x * (1.0 + r) - r * payment;
      { assert x == loan * r * g - payment * g + payment; }
      (loan * r * g - payment * g + payment) * (1.0 + r) - r * payment;
      loan * r * g * (1.0 + r) - payment * g * (1.0 + r) + payment * (1.0 + r) - r * payment;
      loan * r * g * (1.0 + r) - payment * g * (1.0 + r) + payment;
      loan * r * ((1.0 + r) * g) - payment * ((1.0 + r) * g - 1.0);
    }
  }

  lemma {:induction false} BalanceClosedForm(loan: real, r: real, payment: real, k: nat)
    ensures r * Balance(loan, r, payment, k)
         == loan * r * Pow(1.0 + r, k) - payment * (Pow(1.0 + r, k) - 1.0)
  {
    if k > 0 {
      BalanceClosedForm(loan, r, payment, k - 1);
      BalanceUnfold(loan, r, payment, k);
      ClosedFormStep(loan, r, payment, Pow(1.0 + r, k - 1), Balance(loan, r, payment, k - 1),
                     Pow(1.0 + r, k), Balance(loan, r, payment, k));
    }
  }

  lemma BalanceUnfold(loan: real, r: real, payment: real, k: nat)
    requires k > 0
    ensures Pow(1.0 + r, k) == (1.0 + r) * Pow(1.0 + r, k - 1)
    ensures Balance(loan, r, payment, k) == Balance(loan, r, payment, k - 1) * (1.0 + r) - payment
  {
  }

  lemma {:induction false} BalanceAtZeroRate(loan: real, payment: real, k: nat)
    ensures Balance(loan, 0.0, payment, k) == loan - k as real * payment
  {
    if k > 0 {
      BalanceAtZeroRate(loan, payment, k - 1);
    }
  }

  /** The annuity payment pays the loan off exactly: after the last of the n
      payments the reference balance is zero. */
  lemma AnnuityRepaysLoan(loan: real, monthlyRate: real, payments: nat)
    requires Annuity(loan, monthlyRate, payments).Ok?
    ensures Balance(loan, monthlyRate, Annuity(loan, monthlyRate, payments).value, payments) == 0.0
  {
    var p := Annuity(loan, monthlyRate, payments).value;
    if monthlyRate == 0.0 {
      BalanceAtZeroRate(loan, p, payments);
    } else {
      var g := Pow(1.0 + monthlyRate, payments);
      BalanceClosedForm(loan, monthlyRate, p, payments);
      assert p * (g - 1.0) == loan * monthlyRate * g;
      assert monthlyRate * Balance(loan, monthlyRate, p, payments) == 0.0;
    }
  }

  /** With a nonzero monthly rate other than -2 (the one rate whose growth
      factor is -1) and at least one payment the formula never divides by
      zero. */
  lemma AnnuityDefined(loan: real, monthlyRate: real, payments: nat)
    requires payments >= 1 && monthlyRate != 0.0 && monthlyRate != -2.0
    ensures Annuity(loan, monthlyRate, payments).Ok?
  {
    PowIsNotOne(1.0 + monthlyRate, payments);
  }
}
