/** Customer debt as a sale changes it: only the FIRST credit ("nasiya") payment of
    the sale is put on the customer's account, and only when a customer is given. */
module CustomerLedger {
  import opened Records

  /** The index of the first credit payment, if there is one. */
  function FirstDebtIndex(pays: seq<PaymentLine>): (r: Option<nat>)
    ensures r.None? <==> forall j :: 0 <= j < |pays| ==> pays[j].kind != DebtKind
    ensures r.Some? ==> r.value < |pays| && pays[r.value].kind == DebtKind
    ensures r.Some? ==> forall j :: 0 <= j < r.value ==> pays[j].kind != DebtKind
  {
    if |pays| == 0 then None
    else if pays[0].kind == DebtKind then Some(0)
    else match FirstDebtIndex(pays[1..])
      case None => None
      case Some(k) => Some(k + 1)
  }

  /** The customer table after a sale with these payments for this (optional) customer. */
  function AccrueDebt(customers: map<string, int>, customer: Option<string>,
                      pays: seq<PaymentLine>): (r: map<string, int>)
    requires customer.Some? ==> customer.value in customers
    ensures r.Keys == customers.Keys
    ensures forall c :: c in customers && customer != Some(c) ==> r[c] == customers[c]
  {
    var debt := FirstDebtIndex(pays);
    if customer.Some? && debt.Some? then
      customers[customer.value := customers[customer.value] + pays[debt.value].amount]
    else customers
  }

  /** With a customer and a credit payment, the customer's debt grows by the amount
      of the first credit payment, whatever the later payments are. */
  lemma {:induction false} DebtFirstMatchOnly(customers: map<string, int>, c: string,
                          pays: seq<PaymentLine>, k: nat)
    requires c in customers
    requires k < |pays| && pays[k].kind == DebtKind
    requires forall j :: 0 <= j < k ==> pays[j].kind != DebtKind
    ensures AccrueDebt(customers, Some(c), pays) == customers[c := customers[c] + pays[k].amount]
  {
  }

  /** Without a customer, or without a credit payment, no debt changes. */
  lemma {:induction false} DebtUntouched(customers: map<string, int>, customer: Option<string>, pays: seq<PaymentLine>)
    requires customer.Some? ==> customer.value in customers
    requires customer.None? || forall j :: 0 <= j < |pays| ==> pays[j].kind != DebtKind
    ensures AccrueDebt(customers, customer, pays) == customers
  {
  }

  /** Once a credit payment is present, appending more payments does not change the
      index of the first one. */
  lemma {:induction false} FirstDebtIndexPrefix(pays: seq<PaymentLine>, later: seq<PaymentLine>)
    requires FirstDebtIndex(pays).Some?
    ensures FirstDebtIndex(pays + later) == FirstDebtIndex(pays)
  {
    if pays[0].kind != DebtKind {
      assert (pays + later)[1..] == pays[1..] + later;
      FirstDebtIndexPrefix(pays[1..], later);
    }
  }

  /** Payments after the first credit payment, credit or not, add no debt. */
  lemma {:induction false} DebtIgnoresLaterPayments(customers: map<string, int>, customer: Option<string>,
                                 pays: seq<PaymentLine>, later: seq<PaymentLine>)
    requires customer.Some? ==> customer.value in customers
    requires FirstDebtIndex(pays).Some?
    ensures AccrueDebt(customers, customer, pays + later) == AccrueDebt(customers, customer, pays)
  {
    FirstDebtIndexPrefix(pays, later);
    var k := FirstDebtIndex(pays).value;
    assert (pays + later)[k] == pays[k];
  }
}
