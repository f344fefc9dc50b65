/** When a completed order is flagged and for what amounts, on its charges, its tip, its stored
    total and its recorded payments. */
module OrderIssueLaws {
  import opened Wrappers
  import opened Dates
  import opened Money
  import opened Ranking
  import opened Ledger
  import opened Sources
  import opened PaymentText
  import opened IssueBoard
  import opened OrderIssues
  import opened ColumnLaws

  /** Rupees in whole paise, rounded symmetrically about zero. */
  predicate InPaise(paise: int, rupees: real) {
    if rupees >= 0.0 then NearestPaise(paise, rupees) else NearestPaise(-paise, -rupees)
  }

  /** What the order charges: its prices and fees less the discount. */
  predicate ChargesAre(o: Order, base: int) {
    InPaise(base, o.subtotal + o.convenience + o.hygiene + o.surge + o.membership - o.discount)
  }

  /** A positive tip of the payment wins over the order's. */
  predicate TipIs(o: Order, tip: int) {
    InPaise(tip, if o.payment.tip > 0.0 then o.payment.tip else o.tip)
  }

  function Apart(a: int, b: int): int {
    if a < b then b - a else a - b
  }

  /** What is due when the stored total holds the charges and the tip, or the charges alone. */
  predicate DueIs(base: int, tip: int, total: int, due: Option<int>) {
    if Apart(total, base + tip) <= 1 then due == Some(total)
    else if Apart(total, base) <= 1 then due == Some(total + tip)
    else due == None
  }

  predicate ByTip(e: PaymentEntry) {
    Normalize(e.title) == "tip" || Normalize(e.via) == "tip" || Normalize(e.via) == "tips"
  }

  /** A payment or a reconciliation adjustment, and no tip, refund or fee. */
  ghost predicate ByReceipt(e: PaymentEntry, paise: int) {
    && !ByTip(e) && !Has(Normalize(e.title), "refund") && !Has(Normalize(e.title), "cancellation_fee")
    && !Has(Normalize(e.title), "cancellation_charge") && (paise > 0 || Normalize(e.title) == "reconciliation_adjustment")
  }

  /** What a history adds up to: what was received, and the positive tips apart from it. */
  ghost predicate Receipts(history: seq<PaymentEntry>, received: int, tips: int)
    decreases |history|
  {
    if history == [] then received == 0 && tips == 0
    else
      var e := history[|history| - 1];
      exists p: int :: InPaise(p, e.amount)
        && Receipts(history[..|history| - 1], received - (if ByReceipt(e, p) then p else 0), tips - (if ByTip(e) && p > 0 then p else 0))
  }

  /** What the record says was received. */
  ghost predicate ReceivedIs(o: Order, received: int, tips: int) {
    if o.payment.history != [] then Receipts(o.payment.history, received, tips)
    else
      var p := o.payment;
      var paid := if p.actualPaid.Some? then p.actualPaid.value else if p.amountPaid.Some? then p.amountPaid.value else 0.0;
      var cod := if p.cod.Some? then p.cod.value else o.codCollected;
      tips == 0
      && InPaise(received, if paid > 0.0 then paid
                           else cod + (if p.upi.Some? then p.upi.value else 0.0) + (if p.online.Some? then p.online.value else 0.0)
                                + (if p.bank.Some? then p.bank.value else 0.0))
  }

  /** Separate tips count as received when that brings the amount closer to what is due. */
  function Reading(received: int, tips: int, due: int): int {
    if tips > 0 && Apart(received + tips, due) < Apart(received, due) then received + tips else received
  }

  lemma PaiseAre(paise: int, rupees: real)
    ensures InPaise(paise, rupees) <==> paise == MoneyToPaise(rupees)
  {
    PaiseAreNearest(rupees);
    PaiseAreNearest(-rupees);
  }

  lemma PartsAre(e: PaymentEntry, paise: int)
    ensures TipPart(Normalize(e.title), Normalize(e.via), paise) == if ByTip(e) && paise > 0 then paise else 0
    ensures ReceivedPart(Normalize(e.title), Normalize(e.via), paise) == if ByReceipt(e, paise) then paise else 0
  {
    hide Normalize, Has, Contains;
    HasIs(Normalize(e.title), "refund");
    HasIs(Normalize(e.title), "cancellation_fee");
    HasIs(Normalize(e.title), "cancellation_charge");
  }

  lemma {:induction false} ReceiptsAre(history: seq<PaymentEntry>, received: int, tips: int)
    ensures Receipts(history, received, tips) <==> received == HistoryReceived(history) && tips == HistoryTips(history)
  {
    hide Normalize, ByTip, ByReceipt, InPaise, MoneyToPaise, TipPart, ReceivedPart;
    if history != [] {
      var e, init := history[|history| - 1], history[..|history| - 1];
      var p := MoneyToPaise(e.amount);
      PaiseAre(p, e.amount);
      PartsAre(e, p);
      ReceiptsAre(init, received - (if ByReceipt(e, p) then p else 0), tips - (if ByTip(e) && p > 0 then p else 0));
      forall q: int | InPaise(q, e.amount) ensures q == p {
        PaiseAre(q, e.amount);
      }
    }
  }

  lemma ReceivedAre(o: Order, received: int, tips: int)
    requires ReceivedIs(o, received, tips)
    ensures Candidates(o) == (received, tips)
  {
    hide Receipts, HistoryReceived, HistoryTips, InPaise, MoneyToPaise;
    if o.payment.history != [] {
      ReceiptsAre(o.payment.history, received, tips);
    } else {
      var p := o.payment;
      PaiseAre(received, p.cod.GetOr(o.codCollected) + p.upi.GetOr(0.0) + p.online.GetOr(0.0) + p.bank.GetOr(0.0));
      PaiseAre(received, if p.actualPaid.Some? then p.actualPaid.value else p.amountPaid.GetOr(0.0));
    }
  }

  lemma DueAre(o: Order, base: int, tip: int, total: int, due: Option<int>)
    requires ChargesAre(o, base) && TipIs(o, tip) && DueIs(base, tip, total, due)
    requires o.total.Some? && o.total.value >= 0.0 && InPaise(total, o.total.value)
    ensures Base(o) == base && MoneyToPaise(EffectiveTip(o)) == tip && ExpectedDue(o) == due && MoneyToPaise(o.total.value) == total
  {
    hide MoneyToPaise, InPaise;
    PaiseAre(base, o.subtotal + o.convenience + o.hygiene + o.surge + o.membership - o.discount);
    PaiseAre(tip, EffectiveTip(o));
    PaiseAre(total, o.total.value);
  }

  /** A payment finding: a total that fits neither charge model, nothing received for something due,
      or another amount than is due; and none exactly when what is received is due. */
  lemma OrderFlagsIff(o: Order, base: int, tip: int, total: int, due: Option<int>, received: int, tips: int)
    requires ChargesAre(o, base) && TipIs(o, tip) && DueIs(base, tip, total, due) && ReceivedIs(o, received, tips)
    requires o.total.Some? && o.total.value >= 0.0 && InPaise(total, o.total.value)
    ensures var fs := DetectPayment(o);
            && (fs == [] <==> due.Some? && Reading(received, tips, due.value) == due.value)
            && |fs| <= 1
            && (fs != [] ==>
                  && fs[0].key.office == o.office && fs[0].key.source == o.id && fs[0].date == o.date && !fs[0].autoFixable
                  && (due.None? ==> fs[0].key.issueType == InvalidTotal && fs[0].expected == base + tip && fs[0].actual == total)
                  && (due.Some? ==>
                        && fs[0].expected == due.value && fs[0].actual == Reading(received, tips, due.value)
                        && fs[0].key.issueType == if fs[0].actual == 0 && due.value > 0 then MissingPayment else PaymentMismatch))
  {
    hide Candidates, MoneyToPaise, InPaise, ReceivedIs, Base, EffectiveTip;
    DueAre(o, base, tip, total, due);
    ReceivedAre(o, received, tips);
  }

  /** A missing or negative total is an invalid one, whatever was paid. */
  lemma NoTotalIsInvalid(o: Order, base: int)
    requires ChargesAre(o, base) && (o.total.None? || o.total.value < 0.0)
    ensures DetectPayment(o) == [Finding(IssueKey(o.office, o.id, InvalidTotal), o.date, base, 0, false)]
  {
    hide MoneyToPaise, InPaise;
    PaiseAre(base, o.subtotal + o.convenience + o.hygiene + o.surge + o.membership - o.discount);
  }

  ghost predicate Flagged(fs: seq<Finding>, kind: IssueType) {
    exists f :: f in fs && f.key.issueType == kind
  }

  predicate Unusable(amount: Option<real>) {
    amount.None? || amount.value < 0.0
  }

  /** Commission findings of an order that has a beautician or a snapshot. */
  lemma CommissionFlagsIff(o: Order, profile: Option<Profile>)
    ensures var fs, traced := DetectCommission(o, profile), o.beautician.Some? || o.snapshot.Some?;
            && (Flagged(fs, MissingBeautician) <==> traced && (o.beautician.None? || o.beautician.value == 0 || profile.None?))
            && (Flagged(fs, DeletedBeautician) <==> o.beautician.Some? && o.beautician.value != 0 && profile.Some? && profile.value.deleted)
            && (Flagged(fs, MissingCommission) <==> traced && o.snapshot.None?)
            && (Flagged(fs, InvalidCommission) <==>
                  o.snapshot.Some?
                  && var s := o.snapshot.value; Unusable(s.orderCost) || Unusable(s.special) || Unusable(s.general) || Unusable(s.upgrade))
            && (forall f :: f in fs ==> f.key.office == o.office && f.key.source == o.id && f.date == o.date && !f.autoFixable)
  {
    var a, b := AssignmentFindings(o, profile), SnapshotFindings(o);
    forall k: IssueType ensures Flagged(a + b, k) <==> Flagged(a, k) || Flagged(b, k) {
      if f :| f in a && f.key.issueType == k { assert f in a + b; }
      if f :| f in b && f.key.issueType == k { assert f in a + b; }
    }
    AtMostOne(a);
    AtMostOne(b);
  }

  lemma AtMostOne(fs: seq<Finding>)
    requires |fs| <= 1
    ensures forall k: IssueType :: Flagged(fs, k) <==> |fs| == 1 && fs[0].key.issueType == k
  {
    forall k: IssueType ensures Flagged(fs, k) <==> |fs| == 1 && fs[0].key.issueType == k {
      if |fs| == 1 { assert fs[0] in fs; }
    }
  }

  /** An alignment pushes one entry that takes the difference back, under the order's own method,
      unless one for the issue is there already. */
  lemma AlignmentPushes(o: Order, f: Finding)
    ensures var o' := Aligned(o, f);
            if exists e :: e in o.payment.history && e.issue == Some(f.key) then o' == o
            else
              && o'.payment.history == o.payment.history + [PaymentEntry("Reconciliation adjustment",
                   if Normalize(o.payment.via) == "" then "other" else Normalize(o.payment.via),
                   (f.expected - f.actual) as real / 100.0, Some(f.key))]
              && o'.(payment := o'.payment.(history := o.payment.history)) == o
  {
    hide Normalize;
    if Adjusted(o, f.key) {
      var i :| 0 <= i < |o.payment.history| && o.payment.history[i].issue == Some(f.key);
      assert o.payment.history[i] in o.payment.history;
    }
    if e :| e in o.payment.history && e.issue == Some(f.key) {
      var i :| 0 <= i < |o.payment.history| && o.payment.history[i] == e;
    }
  }
}
