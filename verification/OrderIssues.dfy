/** Completed orders against their recorded payments and commission snapshots
    (`internal/earnings/order_issues.go`). */
module OrderIssues {
  import opened Wrappers
  import opened Dates
  import opened Money
  import opened Ranking
  import opened Ledger
  import opened Sources
  import opened PaymentText
  import opened IssueBoard

  /** `issue` marks an entry an alignment pushed. */
  datatype PaymentEntry = PaymentEntry(title: string, via: string, amount: real, issue: Option<IssueKey>)

  datatype Payment = Payment(via: string, tip: real, actualPaid: Option<real>, amountPaid: Option<real>,
                             cod: Option<real>, upi: Option<real>, online: Option<real>, bank: Option<real>,
                             history: seq<PaymentEntry>)

  datatype Order = Order(
    id: Id, office: Id, completed: bool, deleted: bool, date: DateKey, beautician: Option<Id>,
    subtotal: real, convenience: real, hygiene: real, surge: real, membership: real, discount: real,
    total: Option<real>, tip: real, codCollected: real, payment: Payment, snapshot: Option<CommissionSnapshot>)

  const ADJUSTMENT_TITLE := "Reconciliation adjustment"

  // ----- what was received

  predicate IsTip(title: string, via: string) {
    title == "tip" || via == "tip" || via == "tips"
  }

  predicate NotCounted(title: string) {
    Contains(title, "refund") || Contains(title, "cancellation_fee") || Contains(title, "cancellation_charge")
  }

  /** What an entry with these normalised texts adds to the separate tips. */
  function TipPart(title: string, via: string, amount: int): int {
    if IsTip(title, via) && amount > 0 then amount else 0
  }

  /** What it adds to the amount received; adjustments count with their sign. */
  function ReceivedPart(title: string, via: string, amount: int): int {
    if IsTip(title, via) || NotCounted(title) then 0
    else if amount > 0 || title == "reconciliation_adjustment" then amount
    else 0
  }

  function SeparateTip(e: PaymentEntry): int {
    TipPart(Normalize(e.title), Normalize(e.via), MoneyToPaise(e.amount))
  }

  function ReceivedFrom(e: PaymentEntry): int {
    ReceivedPart(Normalize(e.title), Normalize(e.via), MoneyToPaise(e.amount))
  }

  function HistoryReceived(history: seq<PaymentEntry>): int {
    if history == [] then 0 else HistoryReceived(history[..|history| - 1]) + ReceivedFrom(history[|history| - 1])
  }

  function HistoryTips(history: seq<PaymentEntry>): (tips: int)
    ensures tips >= 0
  {
    if history == [] then 0 else HistoryTips(history[..|history| - 1]) + SeparateTip(history[|history| - 1])
  }

  function LegacyReceived(o: Order): int {
    var p := o.payment;
    var paid := if p.actualPaid.Some? then p.actualPaid.value else p.amountPaid.GetOr(0.0);
    if paid > 0.0 then MoneyToPaise(paid)
    else MoneyToPaise(p.cod.GetOr(o.codCollected) + p.upi.GetOr(0.0) + p.online.GetOr(0.0) + p.bank.GetOr(0.0))
  }

  /** The total received, and the tips recorded apart from it. */
  function Candidates(o: Order): (int, int) {
    if o.payment.history != [] then (HistoryReceived(o.payment.history), HistoryTips(o.payment.history))
    else (LegacyReceived(o), 0)
  }

  method CountEntry(title: string, via: string, amount: int, received: int, separateTips: int)
    returns (received': int, separateTips': int)
    ensures received' == received + ReceivedPart(title, via, amount)
    ensures separateTips' == separateTips + TipPart(title, via, amount)
  {
    received', separateTips' := received, separateTips;
    if title == "tip" || via == "tip" || via == "tips" {
      if amount > 0 {
        separateTips' := separateTips + amount;
      }
      return;
    }
    if Contains(title, "refund") || Contains(title, "cancellation_fee") || Contains(title, "cancellation_charge") {
      return;
    }
    if amount > 0 || title == "reconciliation_adjustment" {
      received' := received + amount;
    }
  }

  method ReceivedCandidates(o: Order) returns (received: int, separateTips: int)
    ensures (received, separateTips) == Candidates(o)
  {
    received, separateTips := 0, 0;
    var history := o.payment.history;
    if |history| > 0 {
      for i := 0 to |history|
        invariant received == HistoryReceived(history[..i]) && separateTips == HistoryTips(history[..i])
      {
        assert history[..i + 1][..i] == history[..i];
        var entry := history[i];
        received, separateTips :=
          CountEntry(Normalize(entry.title), Normalize(entry.via), MoneyToPaise(entry.amount), received, separateTips);
      }
      assert history[..|history|] == history;
      return;
    }
    received := LegacyReceived(o);
  }

  /** The reading, with or without separate tips, that comes closest to what is expected. */
  function Closest(received: int, tips: int, expected: int): int {
    if tips > 0 && AbsPaise(received + tips - expected) < AbsPaise(received - expected) then received + tips else received
  }

  function ReceivedFor(o: Order, expected: int): int {
    Closest(Candidates(o).0, Candidates(o).1, expected)
  }

  // ----- what is due

  function Base(o: Order): int {
    MoneyToPaise(o.subtotal + o.convenience + o.hygiene + o.surge + o.membership - o.discount)
  }

  function EffectiveTip(o: Order): real {
    if o.payment.tip > 0.0 then o.payment.tip else o.tip
  }

  /** Either the stored total already includes the tip or the tip comes on top; otherwise none. */
  function ExpectedDue(o: Order): Option<int> {
    if o.total.None? || !ValidMoney(o.total.value) then None
    else
      var total, tip := MoneyToPaise(o.total.value), MoneyToPaise(EffectiveTip(o));
      if AbsPaise(total - (Base(o) + tip)) <= 1 then Some(total)
      else if AbsPaise(total - Base(o)) <= 1 then Some(total + tip)
      else None
  }

  function OrderFinding(o: Order, kind: IssueType, expected: int, actual: int): Finding {
    Finding(IssueKey(o.office, o.id, kind), o.date, expected, actual, false)
  }

  function DetectPayment(o: Order): seq<Finding> {
    var tip := MoneyToPaise(EffectiveTip(o));
    if o.total.None? || !ValidMoney(o.total.value) then [OrderFinding(o, InvalidTotal, Base(o), 0)]
    else if ExpectedDue(o).None? then [OrderFinding(o, InvalidTotal, Base(o) + tip, MoneyToPaise(o.total.value))]
    else
      var expected := ExpectedDue(o).value;
      var actual := ReceivedFor(o, expected);
      if actual == expected then []
      else [OrderFinding(o, if actual == 0 && expected > 0 then MissingPayment else PaymentMismatch, expected, actual)]
  }

  method ReceivedPaiseForExpected(o: Order, expected: int) returns (actual: int)
    ensures actual == ReceivedFor(o, expected)
  {
    var received, separateTips := ReceivedCandidates(o);
    var withSeparateTips := received + separateTips;
    if separateTips > 0 && AbsPaise(withSeparateTips - expected) < AbsPaise(received - expected) {
      return withSeparateTips;
    }
    actual := received;
  }

  method ExpectedReceivable(o: Order) returns (expected: Option<int>)
    requires o.total.Some? && ValidMoney(o.total.value)
    ensures expected == ExpectedDue(o)
  {
    var base, tip := Base(o), MoneyToPaise(EffectiveTip(o));
    var total := MoneyToPaise(o.total.value);
    if AbsPaise(total - (base + tip)) <= 1 {
      expected := Some(total);
    } else if AbsPaise(total - base) <= 1 {
      expected := Some(total + tip);
    } else {
      expected := None;
    }
  }

  method DetectOrderIssues(o: Order) returns (fs: seq<Finding>)
    ensures fs == DetectPayment(o)
  {
    if o.total.None? || !ValidMoney(o.total.value) {
      return [OrderFinding(o, InvalidTotal, Base(o), 0)];
    }
    var expected := ExpectedReceivable(o);
    if expected.None? {
      return [OrderFinding(o, InvalidTotal, Base(o) + MoneyToPaise(EffectiveTip(o)), MoneyToPaise(o.total.value))];
    }
    var actual := ReceivedPaiseForExpected(o, expected.value);
    if actual - expected.value == 0 {
      return [];
    }
    var kind := PaymentMismatch;
    if actual == 0 && expected.value > 0 {
      kind := MissingPayment;
    }
    fs := [OrderFinding(o, kind, expected.value, actual)];
  }

  // ----- commission snapshots

  predicate HasProfile(o: Order) {
    o.beautician.Some? && o.beautician.value != NIL_ID
  }

  function AssignmentFindings(o: Order, profile: Option<Profile>): seq<Finding> {
    if !HasProfile(o) || profile.None? then [OrderFinding(o, MissingBeautician, 0, 0)]
    else if profile.value.deleted then [OrderFinding(o, DeletedBeautician, 0, 0)]
    else []
  }

  predicate CompleteSnapshot(s: CommissionSnapshot) {
    ValidAmount(s.orderCost) && ValidAmount(s.special) && ValidAmount(s.general) && ValidAmount(s.upgrade)
  }

  function SnapshotFindings(o: Order): seq<Finding> {
    if o.snapshot.None? then [OrderFinding(o, MissingCommission, 0, 0)]
    else if !CompleteSnapshot(o.snapshot.value) then [OrderFinding(o, InvalidCommission, 0, 0)]
    else []
  }

  function DetectCommission(o: Order, profile: Option<Profile>): seq<Finding> {
    if o.beautician.None? && o.snapshot.None? then [] else AssignmentFindings(o, profile) + SnapshotFindings(o)
  }

  method DetectOrderCommissionIssues(o: Order, profile: Option<Profile>) returns (fs: seq<Finding>)
    ensures fs == DetectCommission(o, profile)
  {
    fs := [];
    if o.beautician.None? && o.snapshot.None? {
      return;
    }
    if o.beautician.None? || o.beautician.value == NIL_ID {
      fs := fs + [OrderFinding(o, MissingBeautician, 0, 0)];
    } else if profile.None? {
      fs := fs + [OrderFinding(o, MissingBeautician, 0, 0)];
    } else if profile.value.deleted {
      fs := fs + [OrderFinding(o, DeletedBeautician, 0, 0)];
    }
    if o.snapshot.None? {
      return fs + [OrderFinding(o, MissingCommission, 0, 0)];
    }
    var s := o.snapshot.value;
    var values := [s.orderCost, s.special, s.general, s.upgrade];
    var invalid := 0;
    for i := 0 to |values|
      invariant invalid == 0 <==> forall j :: 0 <= j < i ==> ValidAmount(values[j])
      invariant 0 <= invalid
    {
      if values[i].None? || values[i].value < 0.0 {
        invalid := invalid + 1;
      }
    }
    assert ValidAmount(values[0]) && ValidAmount(values[1]) && ValidAmount(values[2]) && ValidAmount(values[3]) <==> CompleteSnapshot(s);
    if invalid > 0 {
      fs := fs + [OrderFinding(o, InvalidCommission, 0, 0)];
    }
  }

  predicate ValidOrder(o: Order) {
    && o.id != NIL_ID && o.office != NIL_ID && o.completed && !o.deleted && ValidDate(o.date)
    && ValidMoney(o.subtotal) && ValidMoney(o.convenience) && ValidMoney(o.hygiene) && ValidMoney(o.surge)
    && ValidMoney(o.membership) && ValidMoney(o.discount) && ValidMoney(EffectiveTip(o))
  }

  // ----- alignment

  function AdjustmentVia(o: Order): string {
    if Normalize(o.payment.via) == "" then "other" else Normalize(o.payment.via)
  }

  predicate Adjusted(o: Order, issue: IssueKey) {
    exists i :: 0 <= i < |o.payment.history| && o.payment.history[i].issue == Some(issue)
  }

  function Adjustment(o: Order, f: Finding): PaymentEntry {
    PaymentEntry(ADJUSTMENT_TITLE, AdjustmentVia(o), PaiseToMoney(-Difference(f)), Some(f.key))
  }

  /** The order with one signed entry that cancels the finding's difference, once per issue. */
  function Aligned(o: Order, f: Finding): Order {
    if Adjusted(o, f.key) then o
    else o.(payment := o.payment.(history := o.payment.history + [Adjustment(o, f)]))
  }

  predicate TipVia(via: string) {
    via == "tip" || via == "tips"
  }

  /** When the pushed entry lands where the detection counts it. */
  predicate Alignable(o: Order, f: Finding) {
    !TipVia(Normalize(o.payment.via))
    || (Difference(f) < 0 && (HistoryTips(o.payment.history) == 0 || f.actual != HistoryReceived(o.payment.history)))
  }

  lemma LoweredTitle()
    ensures Lower(ADJUSTMENT_TITLE) == "reconciliation" + [' '] + "adjustment"
  {
  }

  lemma TitleIsSolid()
    ensures Trim(ADJUSTMENT_TITLE) == ADJUSTMENT_TITLE
  {
    TrimOfSolid(ADJUSTMENT_TITLE);
  }

  lemma AdjustmentTitleNormal()
    ensures Normalize(ADJUSTMENT_TITLE) == "reconciliation_adjustment"
  {
    var a, b := "reconciliation", "adjustment";
    TitleIsSolid();
    LoweredTitle();
    CollapseJoins(a, [' '], b);
    assert a + ['_'] + b == "reconciliation_adjustment";
  }

  lemma LetterMissing(s: string, part: string, d: nat)
    requires d < |part| && part[d] !in s
    ensures !Contains(s, part)
  {
    forall i | 0 <= i <= |s| ensures !StartsAt(s, part, i) {
      if i + |part| <= |s| {
        assert s[i..i + |part|][d] == s[i + d];
      }
    }
  }

  /** No part of the label reads like a refund or a cancellation. */
  lemma AdjustmentIsCounted()
    ensures !NotCounted("reconciliation_adjustment")
  {
    LetterMissing("reconciliation_adjustment", "refund", 2);
    LetterMissing("reconciliation_adjustment", "cancellation_fee", 13);
    LetterMissing("reconciliation_adjustment", "cancellation_charge", 14);
  }

  lemma AdjustmentViaNormal(o: Order)
    ensures Normalize(AdjustmentVia(o)) == AdjustmentVia(o)
    ensures TipVia(AdjustmentVia(o)) <==> TipVia(Normalize(o.payment.via))
  {
    NormalizeTwice(o.payment.via);
    NormalStays("other");
  }

  /** What the pushed entry adds to either reading. */
  lemma AdjustmentParts(o: Order, f: Finding)
    ensures ReceivedFrom(Adjustment(o, f)) == if TipVia(Normalize(o.payment.via)) then 0 else -Difference(f)
    ensures SeparateTip(Adjustment(o, f)) == if TipVia(Normalize(o.payment.via)) && Difference(f) < 0 then -Difference(f) else 0
  {
    hide Normalize;
    AdjustmentTitleNormal();
    AdjustmentIsCounted();
    AdjustmentViaNormal(o);
    PaiseRoundTrip(-Difference(f));
  }

  lemma AlignedReadings(o: Order, f: Finding)
    requires o.payment.history != [] && !Adjusted(o, f.key)
    ensures var (received, tips) := Candidates(o);
            Candidates(Aligned(o, f)) == (received + ReceivedFrom(Adjustment(o, f)), tips + SeparateTip(Adjustment(o, f)))
  {
    var h := o.payment.history + [Adjustment(o, f)];
    assert h[..|h| - 1] == o.payment.history;
  }

  lemma AlignedExpectation(o: Order, f: Finding)
    ensures ExpectedDue(Aligned(o, f)) == ExpectedDue(o) && Aligned(o, f).total == o.total
  {
  }

  /** A difference taken off the amount received, or a shortfall added to the tips, and what
      the closest reading is then. */
  lemma ReadingAfterAdjustment(received: int, tips: int, expected: int, asTip: bool)
    requires tips >= 0 && Closest(received, tips, expected) != expected
    ensures var d := Closest(received, tips, expected) - expected;
            var received', tips' := if asTip then received else received - d, if asTip && d < 0 then tips - d else tips;
            Closest(received', tips', expected) == expected
            <==> !asTip || (d < 0 && (tips == 0 || Closest(received, tips, expected) != received))
  {
  }

  lemma FindingFigures(o: Order, f: Finding)
    requires DetectPayment(o) == [f] && f.key.issueType != InvalidTotal
    ensures ExpectedDue(o) == Some(f.expected) && f.actual == ReceivedFor(o, f.expected) && Difference(f) != 0
  {
  }

  lemma SettledWhenEqual(o: Order)
    requires ExpectedDue(o).Some?
    ensures DetectPayment(o) == [] <==> ReceivedFor(o, ExpectedDue(o).value) == ExpectedDue(o).value
  {
  }

  /** The alignment settles a payment finding if and only if the issue has no adjustment yet and
      the order's payment method lets the detection count the pushed entry. */
  lemma AlignmentSettlesIff(o: Order, f: Finding)
    requires o.payment.history != [] && DetectPayment(o) == [f] && f.key.issueType != InvalidTotal
    ensures DetectPayment(Aligned(o, f)) == [] <==> !Adjusted(o, f.key) && Alignable(o, f)
  {
    hide Normalize, HistoryReceived, HistoryTips, ExpectedDue, DetectPayment, ReceivedFrom, SeparateTip, Adjusted, Aligned;
    FindingFigures(o, f);
    if !Adjusted(o, f.key) {
      AdjustmentParts(o, f);
      AlignedReadings(o, f);
      AlignedExpectation(o, f);
      SettledWhenEqual(Aligned(o, f));
      ReadingAfterAdjustment(Candidates(o).0, Candidates(o).1, f.expected, TipVia(Normalize(o.payment.via)));
    } else {
      AdjustedStays(o, f);
    }
  }

  lemma AdjustedStays(o: Order, f: Finding)
    requires Adjusted(o, f.key)
    ensures Aligned(o, f) == o
  {
  }

  // ----- the history

  ghost predicate OneAdjustmentPerIssue(history: seq<PaymentEntry>) {
    forall i, j :: 0 <= i < j < |history| && history[i].issue.Some? ==> history[i].issue != history[j].issue
  }

  function AlignAll(o: Order, fs: seq<Finding>): Order {
    if fs == [] then o else Aligned(AlignAll(o, fs[..|fs| - 1]), fs[|fs| - 1])
  }

  /** However often and for whatever findings an order is aligned, its history holds at most one
      adjustment for any issue, and every earlier payment is still there. */
  lemma {:induction false} HistoryHoldsOneAdjustment(o: Order, fs: seq<Finding>)
    requires OneAdjustmentPerIssue(o.payment.history)
    ensures OneAdjustmentPerIssue(AlignAll(o, fs).payment.history)
    ensures o.payment.history <= AlignAll(o, fs).payment.history
    ensures AlignAll(o, fs) == o.(payment := AlignAll(o, fs).payment)
  {
    if fs != [] {
      HistoryHoldsOneAdjustment(o, fs[..|fs| - 1]);
    }
  }

  function TipOrder(): Order {
    var payment := Payment("tip", 0.0, None, None, None, None, None, None, [PaymentEntry("cash", "cash", 150.0, None)]);
    Order(1, 1, true, false, DateKey(24000, 1), None, 100.0, 0.0, 0.0, 0.0, 0.0, 0.0, Some(100.0), 0.0, 0.0, payment, None)
  }

  lemma TipOrderReadings()
    ensures Candidates(TipOrder()) == (15000, 0)
  {
    var e := PaymentEntry("cash", "cash", 150.0, None);
    NormalStays("cash");
    CashIsCounted();
    SingleEntry(e);
    assert MoneyToPaise(150.0) == 15000;
  }

  lemma TipOrderDue()
    ensures ExpectedDue(TipOrder()) == Some(10000)
  {
    assert MoneyToPaise(100.0) == 10000 && MoneyToPaise(0.0) == 0;
  }

  lemma DetectedWhenOff(o: Order, expected: int, actual: int)
    requires o.total.Some? && ValidMoney(o.total.value) && ExpectedDue(o) == Some(expected)
    requires ReceivedFor(o, expected) == actual != expected && actual != 0
    ensures DetectPayment(o) == [OrderFinding(o, PaymentMismatch, expected, actual)]
  {
    hide ExpectedDue, ReceivedFor;
  }

  /** A tip method swallows a negative adjustment: this order stays mismatched. */
  lemma TipMethodMisses()
    ensures var o, f := TipOrder(), OrderFinding(TipOrder(), PaymentMismatch, 10000, 15000);
            && o.payment.history != [] && DetectPayment(o) == [f] && !Adjusted(o, f.key)
            && DetectPayment(Aligned(o, f)) != []
  {
    hide ExpectedDue, DetectPayment, Normalize, Aligned, Candidates, HistoryReceived, HistoryTips;
    var o, f := TipOrder(), OrderFinding(TipOrder(), PaymentMismatch, 10000, 15000);
    TipOrderReadings();
    TipOrderDue();
    DetectedWhenOff(o, 10000, 15000);
    NormalStays("tip");
    AlignmentSettlesIff(o, f);
  }

  lemma SingleEntry(e: PaymentEntry)
    ensures HistoryReceived([e]) == ReceivedFrom(e) && HistoryTips([e]) == SeparateTip(e)
  {
    assert [e][..0] == [];
  }

  lemma CashIsCounted()
    ensures !NotCounted("cash")
  {
  }
}
