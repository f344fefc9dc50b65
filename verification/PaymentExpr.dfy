/** The payment columns of the static reports (`internal/reports/static/payment_expr.go`) as
    expressions, and how they compare with the received amount the earnings audit computes. */
module PaymentExpr {
  import opened Wrappers
  import opened Money
  import opened Dates
  import opened Ranking
  import opened PaymentText
  import opened Expressions
  import opened TextAgreement
  import opened OrderIssues

  // ----- the expressions

  const ZERO := Lit(Num(0.0))

  function PaymentField(name: FieldName): Expr {
    Field([PaymentF, name])
  }

  function OrZero(e: Expr): Expr {
    IfNull(e, ZERO)
  }

  const HISTORY := IfNull(PaymentField(HistoryF), Lit(List([])))
  const HAS_HISTORY := Gt(Size(HISTORY), ZERO)
  const LEGACY_PAID := IfNull(PaymentField(ActualPaidAmount), OrZero(PaymentField(AmountPaid)))
  const LEGACY_COD := IfNull(PaymentField(CodAmount), OrZero(Field([CodCollectedAmount])))
  const LEGACY_UPI := OrZero(PaymentField(UpiAmount))
  const LEGACY_ONLINE := OrZero(PaymentField(OnlineAmount))
  const LEGACY_BANK := OrZero(PaymentField(BankTransferAmount))
  const LEGACY_SPLIT := Add(LEGACY_COD, LEGACY_UPI)
  const LEGACY_REMAINING := Max(ZERO, Subtract(LEGACY_PAID, LEGACY_SPLIT))

  function NormalizedText(value: Expr): Expr {
    ReplaceAll(ReplaceAll(TrimText(ToLower(IfNull(value, Lit(Text(""))))), '-', '_'), ' ', '_')
  }

  const LEGACY_METHOD := NormalizedText(PaymentField(MethodF))

  const CASH_METHODS := ["cash", "cod"]
  const UPI_METHODS := ["upi"]
  const ONLINE_METHODS := ["online", "card", "other", "wallet"]
  const BANK_METHODS := ["bank_transfer", "bank"]
  const OFFLINE_METHODS := ["cash", "cod", "upi", "bank_transfer", "bank"]

  function RemainingFor(methods: seq<string>): Expr {
    Cond(In(LEGACY_METHOD, methods), LEGACY_REMAINING, ZERO)
  }

  const REMAINING_ONLINE := Cond(Not(In(LEGACY_METHOD, OFFLINE_METHODS)), LEGACY_REMAINING, ZERO)

  function RemainingOr(remaining: Expr, explicit: Expr): Expr {
    Cond(Gt(LEGACY_REMAINING, ZERO), remaining, explicit)
  }

  const LEGACY_RECEIVED :=
    Cond(Gt(LEGACY_PAID, ZERO), LEGACY_PAID, Add(LEGACY_COD, Add(LEGACY_UPI, Add(LEGACY_ONLINE, LEGACY_BANK))))

  const AMOUNT := This(AmountF)
  const LABEL := NormalizedText(This(LabelF))
  const METHOD := NormalizedText(This(MethodF))

  const IS_ADJUSTMENT := Eq(LABEL, Lit(Text("reconciliation_adjustment")))
  const POSITIVE_OR_ADJUSTMENT := Or(Gt(AMOUNT, ZERO), And(IS_ADJUSTMENT, Not(Eq(AMOUNT, ZERO))))
  const NOT_TIP_LABEL := Not(Eq(LABEL, Lit(Text("tip"))))
  const NOT_TIP_METHOD := Not(In(METHOD, ["tip", "tips"]))
  const NOT_REFUND := Not(RegexMatch(LABEL, Words(["refund"])))
  const NOT_CANCELLATION := Not(RegexMatch(LABEL, Words(["cancellation_fee", "cancellation_charge"])))
  const COUNTABLE := And(POSITIVE_OR_ADJUSTMENT, And(NOT_TIP_LABEL, And(NOT_TIP_METHOD, And(NOT_REFUND, NOT_CANCELLATION))))

  function LabelOr(tokens: seq<string>, bucket: string, otherwise: Expr): Expr {
    Cond(RegexMatch(LABEL, Tokens(tokens)), Lit(Text(bucket)), otherwise)
  }

  const FROM_CASH := LabelOr(["cash", "cod"], "cash", LABEL)
  const FROM_ONLINE := LabelOr(["online"], "online", FROM_CASH)
  const FROM_WALLET := LabelOr(["wallet"], "wallet", FROM_ONLINE)
  const FROM_CARD := LabelOr(["card"], "card", FROM_WALLET)
  const FROM_BANK := LabelOr(["bank", "bank_transfer"], "bank_transfer", FROM_CARD)
  const FROM_UPI := LabelOr(["upi"], "upi", FROM_BANK)
  const BUCKET_TEXT := Cond(Not(Eq(METHOD, Lit(Text("")))), METHOD, FROM_UPI)

  function Step(test: Expr): Expr {
    Add(Accumulated, Cond(test, AMOUNT, ZERO))
  }

  function TotalOf(test: Expr): Expr {
    Reduce(HISTORY, ZERO, Step(test))
  }

  function MethodTotal(methods: seq<string>): Expr {
    TotalOf(And(COUNTABLE, In(BUCKET_TEXT, methods)))
  }

  const RECEIVED := Cond(HAS_HISTORY, TotalOf(COUNTABLE), LEGACY_RECEIVED)
  const CASH := Cond(HAS_HISTORY, MethodTotal(CASH_METHODS), Add(LEGACY_COD, RemainingFor(CASH_METHODS)))
  const UPI := Cond(HAS_HISTORY, MethodTotal(UPI_METHODS), Add(LEGACY_UPI, RemainingFor(UPI_METHODS)))
  const ONLINE := Cond(HAS_HISTORY, MethodTotal(ONLINE_METHODS), RemainingOr(REMAINING_ONLINE, LEGACY_ONLINE))
  const BANK := Cond(HAS_HISTORY, MethodTotal(BANK_METHODS), RemainingOr(RemainingFor(BANK_METHODS), LEGACY_BANK))

  // ----- the documents

  function EntryDoc(e: PaymentEntry): Value {
    Doc(map[LabelF := Text(e.title), MethodF := Text(e.via), AmountF := Num(e.amount)])
  }

  function HistoryDocs(history: seq<PaymentEntry>): (items: seq<Value>)
    ensures |items| == |history| && forall i :: 0 <= i < |items| ==> items[i] == EntryDoc(history[i])
  {
    seq(|history|, i requires 0 <= i < |history| => EntryDoc(history[i]))
  }

  function NumOrNull(amount: Option<real>): Value {
    if amount.Some? then Num(amount.value) else Null
  }

  /** An empty history is not stored at all; neither is an absent amount. */
  function StoredPayment(p: Payment, name: FieldName): Value {
    match name
    case MethodF => Text(p.via)
    case ActualPaidAmount => NumOrNull(p.actualPaid)
    case AmountPaid => NumOrNull(p.amountPaid)
    case CodAmount => NumOrNull(p.cod)
    case UpiAmount => NumOrNull(p.upi)
    case OnlineAmount => NumOrNull(p.online)
    case BankTransferAmount => NumOrNull(p.bank)
    case HistoryF => if p.history == [] then Null else List(HistoryDocs(p.history))
    case _ => Null
  }

  function PaymentDoc(p: Payment): Value {
    Doc(map name: FieldName | StoredPayment(p, name) != Null :: StoredPayment(p, name))
  }

  function OrderDoc(o: Order): Value {
    Doc(map[PaymentF := PaymentDoc(o.payment), CodCollectedAmount := Num(o.codCollected)])
  }

  function EnvOf(o: Order): Env {
    Env(OrderDoc(o), Null, Null)
  }

  function FieldOf(v: Value, name: FieldName): Value {
    if v.Doc? && name in v.fields then v.fields[name] else Null
  }

  lemma LookupOne(v: Value, name: FieldName)
    ensures Lookup(v, [name]) == FieldOf(v, name)
  {
    assert [name][1..] == [];
  }

  lemma LookupTwo(v: Value, a: FieldName, b: FieldName)
    ensures Lookup(v, [a, b]) == FieldOf(FieldOf(v, a), b)
  {
    assert [a, b][1..] == [b];
    LookupOne(FieldOf(v, a), b);
  }

  lemma FieldFound(o: Order, env: Env, name: FieldName)
    requires env.root == OrderDoc(o)
    ensures Eval(PaymentField(name), env) == StoredPayment(o.payment, name)
  {
    LookupTwo(env.root, PaymentF, name);
  }

  lemma CodCollectedFound(o: Order, env: Env)
    requires env.root == OrderDoc(o)
    ensures Eval(Field([CodCollectedAmount]), env) == Num(o.codCollected)
  {
    LookupOne(env.root, CodCollectedAmount);
  }

  lemma HistoryFound(o: Order, env: Env)
    requires env.root == OrderDoc(o)
    ensures Eval(HISTORY, env) == List(HistoryDocs(o.payment.history))
    ensures Eval(HAS_HISTORY, env) == Bool(o.payment.history != [])
  {
    FieldFound(o, env, HistoryF);
    assert HistoryDocs([]) == [];
    assert Eval(Size(HISTORY), env) == Num(|o.payment.history| as real);
  }

  // ----- legacy records

  /** The amounts a legacy record holds, as both programs read them. */
  function PaidAmount(o: Order): real {
    if o.payment.actualPaid.Some? then o.payment.actualPaid.value else o.payment.amountPaid.GetOr(0.0)
  }

  function CodPaid(o: Order): real {
    o.payment.cod.GetOr(o.codCollected)
  }

  lemma OrZeroFound(o: Order, env: Env, name: FieldName, amount: Option<real>)
    requires env.root == OrderDoc(o) && StoredPayment(o.payment, name) == NumOrNull(amount)
    ensures Eval(OrZero(PaymentField(name)), env) == Num(amount.GetOr(0.0))
  {
    FieldFound(o, env, name);
  }

  lemma LegacyFields(o: Order, env: Env)
    requires env.root == OrderDoc(o)
    ensures Eval(LEGACY_PAID, env) == Num(PaidAmount(o))
    ensures Eval(LEGACY_COD, env) == Num(CodPaid(o))
    ensures Eval(LEGACY_UPI, env) == Num(o.payment.upi.GetOr(0.0))
    ensures Eval(LEGACY_ONLINE, env) == Num(o.payment.online.GetOr(0.0))
    ensures Eval(LEGACY_BANK, env) == Num(o.payment.bank.GetOr(0.0))
  {
    FieldFound(o, env, ActualPaidAmount);
    FieldFound(o, env, CodAmount);
    CodCollectedFound(o, env);
    OrZeroFound(o, env, AmountPaid, o.payment.amountPaid);
    OrZeroFound(o, env, UpiAmount, o.payment.upi);
    OrZeroFound(o, env, OnlineAmount, o.payment.online);
    OrZeroFound(o, env, BankTransferAmount, o.payment.bank);
  }

  // ----- history entries

  function EntryEnv(o: Order, e: PaymentEntry, accumulated: Value): Env {
    Env(OrderDoc(o), EntryDoc(e), accumulated)
  }

  lemma EntryFields(o: Order, e: PaymentEntry, acc: Value)
    ensures Eval(AMOUNT, EntryEnv(o, e, acc)) == Num(e.amount)
    ensures Eval(This(LabelF), EntryEnv(o, e, acc)) == Text(e.title)
    ensures Eval(This(MethodF), EntryEnv(o, e, acc)) == Text(e.via)
  {
    LookupOne(EntryDoc(e), AmountF);
    LookupOne(EntryDoc(e), LabelF);
    LookupOne(EntryDoc(e), MethodF);
  }

  lemma NormalizedTextOf(value: Expr, env: Env, s: string)
    requires Eval(value, env) == Text(s)
    ensures Eval(NormalizedText(value), env) == Text(MongoNormal(s))
  {
    hide MongoTrim, MongoLower, ReplaceChar;
    var e0 := IfNull(value, Lit(Text("")));
    var e1 := TrimText(ToLower(e0));
    assert Eval(e0, env) == Text(s);
    assert Eval(e1, env) == Text(MongoTrim(MongoLower(s)));
    var e2 := ReplaceAll(e1, '-', '_');
    assert Eval(e2, env) == Text(ReplaceChar(MongoTrim(MongoLower(s)), '-', '_'));
  }

  lemma EntryTexts(o: Order, e: PaymentEntry, acc: Value)
    ensures Eval(LABEL, EntryEnv(o, e, acc)) == Text(MongoNormal(e.title))
    ensures Eval(METHOD, EntryEnv(o, e, acc)) == Text(MongoNormal(e.via))
  {
    EntryFields(o, e, acc);
    NormalizedTextOf(This(LabelF), EntryEnv(o, e, acc), e.title);
    NormalizedTextOf(This(MethodF), EntryEnv(o, e, acc), e.via);
  }

  /** Whether an entry with these texts counts as a payment. */
  predicate CountsAs(title: string, via: string, amount: real) {
    && (amount > 0.0 || (title == "reconciliation_adjustment" && amount != 0.0))
    && !IsTip(title, via) && !NotCounted(title)
  }

  lemma WordsMatch(s: string)
    ensures Matches(Words(["refund"]), s) <==> Contains(s, "refund")
    ensures Matches(Words(["cancellation_fee", "cancellation_charge"]), s)
            <==> Contains(s, "cancellation_fee") || Contains(s, "cancellation_charge")
  {
    assert ["refund"][0] == "refund";
    assert ["cancellation_fee", "cancellation_charge"][0] == "cancellation_fee";
    assert ["cancellation_fee", "cancellation_charge"][1] == "cancellation_charge";
  }

  lemma PositiveOrAdjustmentIs(env: Env, title: string, amount: real)
    requires Eval(LABEL, env) == Text(title) && Eval(AMOUNT, env) == Num(amount)
    ensures Eval(POSITIVE_OR_ADJUSTMENT, env) == Bool(amount > 0.0 || (title == "reconciliation_adjustment" && amount != 0.0))
  {
    hide LABEL, AMOUNT;
    assert Eval(IS_ADJUSTMENT, env) == Bool(title == "reconciliation_adjustment");
    assert Eval(Eq(AMOUNT, ZERO), env) == Bool(amount == 0.0);
    assert Eval(Gt(AMOUNT, ZERO), env) == Bool(amount > 0.0);
    assert Eval(Not(Eq(AMOUNT, ZERO)), env) == Bool(amount != 0.0);
    assert Eval(And(IS_ADJUSTMENT, Not(Eq(AMOUNT, ZERO))), env) == Bool(title == "reconciliation_adjustment" && amount != 0.0);
  }

  lemma NotTipIs(env: Env, title: string, via: string)
    requires Eval(LABEL, env) == Text(title) && Eval(METHOD, env) == Text(via)
    ensures Eval(NOT_TIP_LABEL, env) == Bool(title != "tip")
    ensures Eval(NOT_TIP_METHOD, env) == Bool(via != "tip" && via != "tips")
  {
    hide LABEL, METHOD;
    assert Eval(Eq(LABEL, Lit(Text("tip"))), env) == Bool(title == "tip");
    assert Eval(In(METHOD, ["tip", "tips"]), env) == Bool(via in ["tip", "tips"]);
  }

  lemma NotCountedIs(env: Env, title: string)
    requires Eval(LABEL, env) == Text(title)
    ensures Eval(NOT_REFUND, env) == Bool(!Contains(title, "refund"))
    ensures Eval(NOT_CANCELLATION, env) == Bool(!Contains(title, "cancellation_fee") && !Contains(title, "cancellation_charge"))
  {
    WordsMatch(title);
    assert Eval(RegexMatch(LABEL, Words(["refund"])), env) == Bool(Contains(title, "refund"));
    assert Eval(RegexMatch(LABEL, Words(["cancellation_fee", "cancellation_charge"])), env)
        == Bool(Contains(title, "cancellation_fee") || Contains(title, "cancellation_charge"));
  }

  lemma CountableIs(env: Env, title: string, via: string, amount: real)
    requires Eval(LABEL, env) == Text(title) && Eval(METHOD, env) == Text(via) && Eval(AMOUNT, env) == Num(amount)
    ensures Eval(COUNTABLE, env) == Bool(CountsAs(title, via, amount))
  {
    hide LABEL, METHOD, AMOUNT, POSITIVE_OR_ADJUSTMENT, NOT_TIP_LABEL, NOT_TIP_METHOD, NOT_REFUND, NOT_CANCELLATION;
    PositiveOrAdjustmentIs(env, title, amount);
    NotTipIs(env, title, via);
    NotCountedIs(env, title);
    var tail := And(NOT_REFUND, NOT_CANCELLATION);
    assert Eval(tail, env) == Bool(!NotCounted(title));
    var tail' := And(NOT_TIP_METHOD, tail);
    assert Eval(tail', env) == Bool(via != "tip" && via != "tips" && !NotCounted(title));
    assert Eval(And(NOT_TIP_LABEL, tail'), env) == Bool(!IsTip(title, via) && !NotCounted(title));
  }

  predicate Countable(e: PaymentEntry) {
    CountsAs(MongoNormal(e.title), MongoNormal(e.via), e.amount)
  }

  /** The bucket an entry belongs to: its method, else what its label says. */
  function LabelBucket(title: string): string {
    if HasToken(title, "upi") then "upi"
    else if HasToken(title, "bank") || HasToken(title, "bank_transfer") then "bank_transfer"
    else if HasToken(title, "card") then "card"
    else if HasToken(title, "wallet") then "wallet"
    else if HasToken(title, "online") then "online"
    else if HasToken(title, "cash") || HasToken(title, "cod") then "cash"
    else title
  }

  function BucketOf(e: PaymentEntry): string {
    if MongoNormal(e.via) != "" then MongoNormal(e.via) else LabelBucket(MongoNormal(e.title))
  }

  lemma LabelOrIs(env: Env, title: string, tokens: seq<string>, bucket: string, otherwise: Expr)
    requires Eval(LABEL, env) == Text(title)
    ensures Eval(LabelOr(tokens, bucket, otherwise), env) == if Matches(Tokens(tokens), title) then Text(bucket) else Eval(otherwise, env)
  {
    hide NormalizedText, Matches;
    assert Eval(RegexMatch(LABEL, Tokens(tokens)), env) == Bool(Matches(Tokens(tokens), title));
  }

  lemma OneToken(s: string, a: string)
    ensures Matches(Tokens([a]), s) <==> HasToken(s, a)
  {
    assert [a][0] == a;
  }

  lemma TwoTokens(s: string, a: string, b: string)
    ensures Matches(Tokens([a, b]), s) <==> HasToken(s, a) || HasToken(s, b)
  {
    assert [a, b][0] == a && [a, b][1] == b;
  }

  lemma LabelBucketIs(env: Env, title: string)
    requires Eval(LABEL, env) == Text(title)
    ensures Eval(FROM_UPI, env) == Text(LabelBucket(title))
  {
    LabelOrIs(env, title, ["cash", "cod"], "cash", LABEL);
    TwoTokens(title, "cash", "cod");
    LabelOrIs(env, title, ["online"], "online", FROM_CASH);
    OneToken(title, "online");
    LabelOrIs(env, title, ["wallet"], "wallet", FROM_ONLINE);
    OneToken(title, "wallet");
    LabelOrIs(env, title, ["card"], "card", FROM_WALLET);
    OneToken(title, "card");
    LabelOrIs(env, title, ["bank", "bank_transfer"], "bank_transfer", FROM_CARD);
    TwoTokens(title, "bank", "bank_transfer");
    LabelOrIs(env, title, ["upi"], "upi", FROM_BANK);
    OneToken(title, "upi");
  }

  lemma BucketTextIs(o: Order, e: PaymentEntry, acc: Value)
    ensures Eval(BUCKET_TEXT, EntryEnv(o, e, acc)) == Text(BucketOf(e))
  {
    hide METHOD, FROM_UPI, MongoNormal, LabelBucket, EntryEnv;
    var env := EntryEnv(o, e, acc);
    EntryTexts(o, e, acc);
    LabelBucketIs(env, MongoNormal(e.title));
    assert Eval(Eq(METHOD, Lit(Text(""))), env) == Bool(MongoNormal(e.via) == "");
    assert Eval(Not(Eq(METHOD, Lit(Text("")))), env) == Bool(MongoNormal(e.via) != "");
  }

  // ----- totals over the history

  function SumWhere(history: seq<PaymentEntry>, counts: PaymentEntry -> bool): real {
    if history == [] then 0.0
    else
      var e := history[|history| - 1];
      SumWhere(history[..|history| - 1], counts) + (if counts(e) then e.amount else 0.0)
  }

  /** The test accepts exactly the entries that `counts` does, whatever the total so far. */
  ghost predicate Decides(test: Expr, o: Order, counts: PaymentEntry -> bool) {
    forall e: PaymentEntry, acc: Value :: Truth(Eval(test, EntryEnv(o, e, acc))) <==> counts(e)
  }

  lemma StepAdds(test: Expr, o: Order, counts: PaymentEntry -> bool, e: PaymentEntry, sum: real)
    requires Truth(Eval(test, EntryEnv(o, e, Num(sum)))) <==> counts(e)
    ensures Eval(Step(test), EntryEnv(o, e, Num(sum))) == Num(sum + if counts(e) then e.amount else 0.0)
  {
    var env := EntryEnv(o, e, Num(sum));
    EntryFields(o, e, Num(sum));
    assert Eval(Cond(test, AMOUNT, ZERO), env) == Num(if counts(e) then e.amount else 0.0);
    assert Eval(Accumulated, env) == Num(sum);
  }

  lemma FoldSnoc(body: Expr, o: Order, history: seq<PaymentEntry>, initial: Value)
    requires history != []
    ensures var n := |history| - 1;
            Fold(body, HistoryDocs(history), initial, OrderDoc(o))
            == Eval(body, EntryEnv(o, history[n], Fold(body, HistoryDocs(history[..n]), initial, OrderDoc(o))))
  {
    assert HistoryDocs(history)[..|history| - 1] == HistoryDocs(history[..|history| - 1]);
  }

  lemma {:induction false} FoldTotals(test: Expr, o: Order, counts: PaymentEntry -> bool, history: seq<PaymentEntry>)
    requires Decides(test, o, counts)
    ensures Fold(Step(test), HistoryDocs(history), Num(0.0), OrderDoc(o)) == Num(SumWhere(history, counts))
  {
    if history != [] {
      var n := |history| - 1;
      FoldTotals(test, o, counts, history[..n]);
      FoldSnoc(Step(test), o, history, Num(0.0));
      StepAdds(test, o, counts, history[n], SumWhere(history[..n], counts));
    }
  }

  lemma ReduceOver(of: Expr, body: Expr, env: Env, items: seq<Value>)
    requires Eval(of, env) == List(items)
    ensures Eval(Reduce(of, ZERO, body), env) == Fold(body, items, Num(0.0), env.root)
  {
    hide Fold;
  }

  lemma TotalIs(test: Expr, o: Order, counts: PaymentEntry -> bool)
    requires Decides(test, o, counts)
    ensures Eval(TotalOf(test), EnvOf(o)) == Num(SumWhere(o.payment.history, counts))
  {
    hide Eval, Fold, SumWhere, HistoryDocs, OrderDoc, Step;
    HistoryFound(o, EnvOf(o));
    ReduceOver(HISTORY, Step(test), EnvOf(o), HistoryDocs(o.payment.history));
    FoldTotals(test, o, counts, o.payment.history);
  }

  function CountableEntry(): PaymentEntry -> bool {
    (e: PaymentEntry) => Countable(e)
  }

  function InBucket(methods: seq<string>): PaymentEntry -> bool {
    (e: PaymentEntry) => Countable(e) && BucketOf(e) in methods
  }

  lemma CountableAt(o: Order, e: PaymentEntry, acc: Value)
    ensures Eval(COUNTABLE, EntryEnv(o, e, acc)) == Bool(Countable(e))
  {
    EntryTexts(o, e, acc);
    EntryFields(o, e, acc);
    CountableIs(EntryEnv(o, e, acc), MongoNormal(e.title), MongoNormal(e.via), e.amount);
  }

  lemma BothAre(a: Expr, b: Expr, env: Env, p: bool, q: bool)
    requires Eval(a, env) == Bool(p) && Eval(b, env) == Bool(q)
    ensures Eval(And(a, b), env) == Bool(p && q)
  {
  }

  lemma InIs(a: Expr, env: Env, text: string, choices: seq<string>)
    requires Eval(a, env) == Text(text)
    ensures Eval(In(a, choices), env) == Bool(text in choices)
  {
  }

  lemma BucketAt(o: Order, e: PaymentEntry, acc: Value, methods: seq<string>)
    ensures Eval(And(COUNTABLE, In(BUCKET_TEXT, methods)), EntryEnv(o, e, acc)) == Bool(InBucket(methods)(e))
  {
    var env := EntryEnv(o, e, acc);
    CountableAt(o, e, acc);
    BucketTextIs(o, e, acc);
    InIs(BUCKET_TEXT, env, BucketOf(e), methods);
    BothAre(COUNTABLE, In(BUCKET_TEXT, methods), env, Countable(e), BucketOf(e) in methods);
  }

  lemma CountableDecides(o: Order)
    ensures Decides(COUNTABLE, o, CountableEntry())
  {
    forall e: PaymentEntry, acc: Value ensures Truth(Eval(COUNTABLE, EntryEnv(o, e, acc))) <==> CountableEntry()(e) {
      CountableAt(o, e, acc);
    }
  }

  lemma ReceivedOfHistory(o: Order)
    requires o.payment.history != []
    ensures Eval(RECEIVED, EnvOf(o)) == Num(SumWhere(o.payment.history, CountableEntry()))
  {
    HistoryFound(o, EnvOf(o));
    CountableDecides(o);
    TotalIs(COUNTABLE, o, CountableEntry());
  }

  lemma BucketDecides(o: Order, methods: seq<string>)
    ensures Decides(And(COUNTABLE, In(BUCKET_TEXT, methods)), o, InBucket(methods))
  {
    forall e: PaymentEntry, acc: Value
      ensures Truth(Eval(And(COUNTABLE, In(BUCKET_TEXT, methods)), EntryEnv(o, e, acc))) <==> InBucket(methods)(e)
    {
      BucketAt(o, e, acc, methods);
    }
  }

  const KNOWN_BUCKETS := CASH_METHODS + UPI_METHODS + ONLINE_METHODS + BANK_METHODS

  function InNoBucket(): PaymentEntry -> bool {
    (e: PaymentEntry) => Countable(e) && BucketOf(e) !in KNOWN_BUCKETS
  }

  lemma BucketsDisjoint(m: string)
    ensures m in KNOWN_BUCKETS <==> m in CASH_METHODS || m in UPI_METHODS || m in ONLINE_METHODS || m in BANK_METHODS
    ensures m in CASH_METHODS ==> m !in UPI_METHODS && m !in ONLINE_METHODS && m !in BANK_METHODS
    ensures m in UPI_METHODS ==> m !in ONLINE_METHODS && m !in BANK_METHODS
    ensures m in ONLINE_METHODS ==> m !in BANK_METHODS
  {
  }

  lemma {:induction false} BucketsPartition(history: seq<PaymentEntry>)
    ensures SumWhere(history, CountableEntry())
         == SumWhere(history, InBucket(CASH_METHODS)) + SumWhere(history, InBucket(UPI_METHODS))
          + SumWhere(history, InBucket(ONLINE_METHODS)) + SumWhere(history, InBucket(BANK_METHODS))
          + SumWhere(history, InNoBucket())
  {
    if history != [] {
      BucketsPartition(history[..|history| - 1]);
      BucketsDisjoint(BucketOf(history[|history| - 1]));
    }
  }

  /** With a payment history the four bucket columns and the total differ by exactly the counted
      entries of an unknown bucket. */
  lemma HistoryBucketsAddUp(o: Order)
    requires o.payment.history != []
    ensures var h, env := o.payment.history, EnvOf(o);
            && Eval(RECEIVED, env) == Num(SumWhere(h, CountableEntry()))
            && Eval(CASH, env).Num? && Eval(UPI, env).Num? && Eval(ONLINE, env).Num? && Eval(BANK, env).Num?
            && Eval(CASH, env).number + Eval(UPI, env).number + Eval(ONLINE, env).number + Eval(BANK, env).number
               == Eval(RECEIVED, env).number - SumWhere(h, InNoBucket())
  {
    HistoryFound(o, EnvOf(o));
    ReceivedOfHistory(o);
    BucketIs(o, CASH_METHODS);
    BucketIs(o, UPI_METHODS);
    BucketIs(o, ONLINE_METHODS);
    BucketIs(o, BANK_METHODS);
    BucketsPartition(o.payment.history);
  }

  lemma BucketIs(o: Order, methods: seq<string>)
    ensures Eval(MethodTotal(methods), EnvOf(o)) == Num(SumWhere(o.payment.history, InBucket(methods)))
  {
    BucketDecides(o, methods);
    TotalIs(And(COUNTABLE, In(BUCKET_TEXT, methods)), o, InBucket(methods));
  }

  lemma {:induction false} NoUnknownNoGap(history: seq<PaymentEntry>)
    requires forall i :: 0 <= i < |history| && Countable(history[i]) ==> BucketOf(history[i]) in KNOWN_BUCKETS
    ensures SumWhere(history, InNoBucket()) == 0.0
  {
    if history != [] {
      assert forall i :: 0 <= i < |history| - 1 ==> history[..|history| - 1][i] == history[i];
      NoUnknownNoGap(history[..|history| - 1]);
    }
  }

  /** So they add up when every counted entry has a known bucket. */
  lemma KnownBucketsAddUp(o: Order)
    requires o.payment.history != []
    requires forall i :: 0 <= i < |o.payment.history| && Countable(o.payment.history[i]) ==> BucketOf(o.payment.history[i]) in KNOWN_BUCKETS
    ensures var env := EnvOf(o);
            && Eval(RECEIVED, env).Num? && Eval(CASH, env).Num? && Eval(UPI, env).Num? && Eval(ONLINE, env).Num? && Eval(BANK, env).Num?
            && Eval(CASH, env).number + Eval(UPI, env).number + Eval(ONLINE, env).number + Eval(BANK, env).number == Eval(RECEIVED, env).number
  {
    HistoryBucketsAddUp(o);
    NoUnknownNoGap(o.payment.history);
  }

  // ----- legacy records, bucket by bucket

  function Remaining(o: Order): real {
    var rest := PaidAmount(o) - (CodPaid(o) + o.payment.upi.GetOr(0.0));
    if rest < 0.0 then 0.0 else rest
  }

  function LegacyMethod(o: Order): string {
    MongoNormal(o.payment.via)
  }

  lemma RemainingIs(o: Order)
    ensures Eval(LEGACY_REMAINING, EnvOf(o)) == Num(Remaining(o))
    ensures Eval(Gt(LEGACY_REMAINING, ZERO), EnvOf(o)) == Bool(Remaining(o) > 0.0)
  {
    var env := EnvOf(o);
    LegacyFields(o, env);
    assert Eval(LEGACY_SPLIT, env) == Num(CodPaid(o) + o.payment.upi.GetOr(0.0));
    assert Eval(Subtract(LEGACY_PAID, LEGACY_SPLIT), env) == Num(PaidAmount(o) - (CodPaid(o) + o.payment.upi.GetOr(0.0)));
  }

  lemma RemainingForIs(o: Order, methods: seq<string>)
    ensures Eval(RemainingFor(methods), EnvOf(o)) == Num(if LegacyMethod(o) in methods then Remaining(o) else 0.0)
  {
    var env := EnvOf(o);
    RemainingIs(o);
    FieldFound(o, env, MethodF);
    NormalizedTextOf(PaymentField(MethodF), env, o.payment.via);
    InIs(LEGACY_METHOD, env, LegacyMethod(o), methods);
  }

  lemma RemainingOnlineIs(o: Order)
    ensures Eval(REMAINING_ONLINE, EnvOf(o)) == Num(if LegacyMethod(o) in OFFLINE_METHODS then 0.0 else Remaining(o))
  {
    hide Remaining;
    var env := EnvOf(o);
    RemainingIs(o);
    FieldFound(o, env, MethodF);
    NormalizedTextOf(PaymentField(MethodF), env, o.payment.via);
    InIs(LEGACY_METHOD, env, LegacyMethod(o), OFFLINE_METHODS);
    assert Eval(Not(In(LEGACY_METHOD, OFFLINE_METHODS)), env) == Bool(LegacyMethod(o) !in OFFLINE_METHODS);
  }

  lemma RemainingOrIs(o: Order, remaining: Expr, explicit: Expr)
    ensures Eval(RemainingOr(remaining, explicit), EnvOf(o)) == if Remaining(o) > 0.0 then Eval(remaining, EnvOf(o)) else Eval(explicit, EnvOf(o))
  {
    RemainingIs(o);
  }

  function Explicit(o: Order): real {
    CodPaid(o) + o.payment.upi.GetOr(0.0) + o.payment.online.GetOr(0.0) + o.payment.bank.GetOr(0.0)
  }

  function LegacyTotal(o: Order): real {
    if PaidAmount(o) > 0.0 then PaidAmount(o) else Explicit(o)
  }

  lemma LegacyReceivedIs(o: Order)
    ensures Eval(LEGACY_RECEIVED, EnvOf(o)) == Num(LegacyTotal(o))
  {
    var env := EnvOf(o);
    LegacyFields(o, env);
    assert Eval(Gt(LEGACY_PAID, ZERO), env) == Bool(PaidAmount(o) > 0.0);
    assert Eval(Add(LEGACY_ONLINE, LEGACY_BANK), env) == Num(o.payment.online.GetOr(0.0) + o.payment.bank.GetOr(0.0));
    assert Eval(Add(LEGACY_UPI, Add(LEGACY_ONLINE, LEGACY_BANK)), env)
        == Num(o.payment.upi.GetOr(0.0) + o.payment.online.GetOr(0.0) + o.payment.bank.GetOr(0.0));
  }

  lemma LegacySplitIs(o: Order)
    requires o.payment.history == []
    ensures var env, m, r := EnvOf(o), LegacyMethod(o), Remaining(o);
            && Eval(CASH, env) == Num(CodPaid(o) + if m in CASH_METHODS then r else 0.0)
            && Eval(UPI, env) == Num(o.payment.upi.GetOr(0.0) + if m in UPI_METHODS then r else 0.0)
  {
    hide Remaining, LegacyMethod, CodPaid, LEGACY_COD, LEGACY_UPI, RemainingFor, HAS_HISTORY, MethodTotal;
    HistoryFound(o, EnvOf(o));
    LegacyFields(o, EnvOf(o));
    RemainingForIs(o, CASH_METHODS);
    RemainingForIs(o, UPI_METHODS);
    assert Eval(Add(LEGACY_COD, RemainingFor(CASH_METHODS)), EnvOf(o)).Num?;
    assert Eval(Add(LEGACY_UPI, RemainingFor(UPI_METHODS)), EnvOf(o)).Num?;
  }

  lemma LegacyRestIs(o: Order)
    requires o.payment.history == []
    ensures var env, m, r := EnvOf(o), LegacyMethod(o), Remaining(o);
            && Eval(ONLINE, env) == Num(if r > 0.0 then (if m in OFFLINE_METHODS then 0.0 else r) else o.payment.online.GetOr(0.0))
            && Eval(BANK, env) == Num(if r > 0.0 then (if m in BANK_METHODS then r else 0.0) else o.payment.bank.GetOr(0.0))
  {
    HistoryFound(o, EnvOf(o));
    LegacyFields(o, EnvOf(o));
    RemainingOnlineIs(o);
    RemainingForIs(o, BANK_METHODS);
    RemainingOrIs(o, REMAINING_ONLINE, LEGACY_ONLINE);
    RemainingOrIs(o, RemainingFor(BANK_METHODS), LEGACY_BANK);
  }

  predicate NonNegative(o: Order) {
    PaidAmount(o) >= 0.0 && CodPaid(o) >= 0.0 && o.payment.upi.GetOr(0.0) >= 0.0
    && o.payment.online.GetOr(0.0) >= 0.0 && o.payment.bank.GetOr(0.0) >= 0.0
  }

  lemma OfflineIsTheRest(m: string)
    ensures m in OFFLINE_METHODS <==> m in CASH_METHODS || m in UPI_METHODS || m in BANK_METHODS
  {
  }

  /** A legacy record's buckets add up to its total exactly when nothing was recorded as paid, or
      more than the cash and UPI parts was, or just the sum of all explicit parts. */
  lemma LegacyBucketsAddUpIff(o: Order)
    requires o.payment.history == [] && NonNegative(o)
    ensures var env, paid := EnvOf(o), PaidAmount(o);
            && Eval(RECEIVED, env) == Num(LegacyTotal(o))
            && Eval(CASH, env).Num? && Eval(UPI, env).Num? && Eval(ONLINE, env).Num? && Eval(BANK, env).Num?
            && (Eval(CASH, env).number + Eval(UPI, env).number + Eval(ONLINE, env).number + Eval(BANK, env).number == LegacyTotal(o)
                <==> paid == 0.0 || paid > CodPaid(o) + o.payment.upi.GetOr(0.0) || paid == Explicit(o))
  {
    HistoryFound(o, EnvOf(o));
    LegacyReceivedIs(o);
    LegacySplitIs(o);
    LegacyRestIs(o);
    OfflineIsTheRest(LegacyMethod(o));
    BucketsDisjoint(LegacyMethod(o));
  }

  /** A cash order of which 10 were collected and 5 are recorded as paid. */
  const OVERCOLLECTED :=
    Order(1, 1, true, false, DateKey(24000, 1), None, 0.0, 0.0, 0.0, 0.0, 0.0, 0.0, None, 0.0, 0.0,
          Payment("cash", 0.0, Some(5.0), None, Some(10.0), None, None, None, []), None)

  /** A legacy record whose buckets do not add up to its total. */
  lemma LegacyBucketsCanMiss() returns (o: Order)
    ensures o.payment.history == [] && NonNegative(o)
    ensures Eval(RECEIVED, EnvOf(o)) == Num(5.0)
    ensures Number(Eval(CASH, EnvOf(o))) + Number(Eval(UPI, EnvOf(o))) + Number(Eval(ONLINE, EnvOf(o))) + Number(Eval(BANK, EnvOf(o))) != 5.0
  {
    hide Eval, EnvOf;
    o := OVERCOLLECTED;
    LegacyBucketsAddUpIff(o);
  }

  // ----- the total against the audit's reading

  predicate SinglySeparatedEntry(e: PaymentEntry) {
    Separated(e.title) && Separated(e.via)
  }

  predicate WholePaiseRecord(o: Order) {
    if o.payment.history != [] then forall i :: 0 <= i < |o.payment.history| ==> WholePaise(o.payment.history[i].amount)
    else WholePaise(PaidAmount(o)) && WholePaise(CodPaid(o)) && WholePaise(o.payment.upi.GetOr(0.0))
         && WholePaise(o.payment.online.GetOr(0.0)) && WholePaise(o.payment.bank.GetOr(0.0))
  }

  predicate SinglySeparated(o: Order) {
    forall i :: 0 <= i < |o.payment.history| ==> SinglySeparatedEntry(o.payment.history[i])
  }

  lemma PartsAgree(title: string, via: string, amount: real)
    requires WholePaise(amount)
    ensures (if CountsAs(title, via, amount) then amount else 0.0) == PaiseToMoney(ReceivedPart(title, via, MoneyToPaise(amount)))
  {
    WholePaiseSign(amount);
  }

  lemma CountsAlike(title: string, title': string, via: string, via': string, amount: real)
    requires SameToAscii(title, title') && SameToAscii(via, via')
    ensures CountsAs(title, via, amount) <==> CountsAs(title', via', amount)
  {
    hide SameToAscii, Contains;
    WordsAlike(title, title', "reconciliation_adjustment");
    WordsAlike(title, title', "tip");
    WordsAlike(via, via', "tip");
    WordsAlike(via, via', "tips");
    WordsAlike(title, title', "refund");
    WordsAlike(title, title', "cancellation_fee");
    WordsAlike(title, title', "cancellation_charge");
  }

  lemma EntryAgrees(e: PaymentEntry)
    requires SinglySeparatedEntry(e) && WholePaise(e.amount)
    ensures (if Countable(e) then e.amount else 0.0) == PaiseToMoney(ReceivedFrom(e))
  {
    hide Normalize, MongoNormal, SameToAscii, CountsAs, ReceivedPart;
    SeparatedAlike(e.title);
    SeparatedAlike(e.via);
    CountsAlike(Normalize(e.title), MongoNormal(e.title), Normalize(e.via), MongoNormal(e.via), e.amount);
    PartsAgree(Normalize(e.title), Normalize(e.via), e.amount);
  }

  lemma {:induction false} HistoryAgrees(history: seq<PaymentEntry>)
    requires forall i :: 0 <= i < |history| ==> SinglySeparatedEntry(history[i]) && WholePaise(history[i].amount)
    ensures SumWhere(history, CountableEntry()) == PaiseToMoney(HistoryReceived(history))
  {
    if history != [] {
      var n := |history| - 1;
      assert forall i :: 0 <= i < n ==> history[..n][i] == history[i];
      HistoryAgrees(history[..n]);
      EntryAgrees(history[n]);
    }
  }

  lemma LegacyAgrees(o: Order)
    requires o.payment.history == [] && WholePaiseRecord(o)
    ensures LegacyTotal(o) == PaiseToMoney(LegacyReceived(o))
  {
    if PaidAmount(o) <= 0.0 {
      WholePaiseAdds(CodPaid(o), o.payment.upi.GetOr(0.0));
      WholePaiseAdds(CodPaid(o) + o.payment.upi.GetOr(0.0), o.payment.online.GetOr(0.0));
      WholePaiseAdds(CodPaid(o) + o.payment.upi.GetOr(0.0) + o.payment.online.GetOr(0.0), o.payment.bank.GetOr(0.0));
    }
  }

  /** On every whole-paise record whose texts have single separators, the report's received
      column is the amount the earnings audit reads. */
  lemma ReceivedAgrees(o: Order)
    requires WholePaiseRecord(o) && SinglySeparated(o)
    ensures Eval(RECEIVED, EnvOf(o)) == Num(PaiseToMoney(Candidates(o).0))
  {
    HistoryFound(o, EnvOf(o));
    if o.payment.history != [] {
      ReceivedOfHistory(o);
      HistoryAgrees(o.payment.history);
    } else {
      LegacyReceivedIs(o);
      LegacyAgrees(o);
    }
  }

  // ----- where they part

  function Paid(title: string, via: string, amount: real): Order {
    var payment := Payment("", 0.0, None, None, None, None, None, None, [PaymentEntry(title, via, amount, None)]);
    Order(1, 1, true, false, DateKey(24000, 1), None, 0.0, 0.0, 0.0, 0.0, 0.0, 0.0, None, 0.0, 0.0, payment, None)
  }

  const DASHED := "cancellation - fee"

  lemma DashedIsSolid()
    ensures Trim(DASHED) == DASHED && Lower(DASHED) == DASHED && MongoTrim(DASHED) == DASHED
  {
    TrimOfSolid(DASHED);
    SolidForMongo(DASHED);
  }

  lemma DashedForAudit()
    ensures Normalize(DASHED) == "cancellation_fee"
  {
    DashedIsSolid();
    assert "cancellation" + " - " + "fee" == DASHED && "cancellation" + ['_'] + "fee" == "cancellation_fee";
    CollapseJoins("cancellation", " - ", "fee");
  }

  lemma DashedForReport()
    ensures MongoNormal(DASHED) == "cancellation___fee"
  {
    DashedIsSolid();
    MongoNormalAt(DASHED);
  }

  lemma FeeIsNotCounted()
    ensures NotCounted("cancellation_fee")
  {
    assert StartsAt("cancellation_fee", "cancellation_fee", 0);
  }

  lemma CashIsCash()
    ensures Normalize("cash") == "cash" && MongoNormal("cash") == "cash"
  {
    NormalStays("cash");
    TrimOfSolid("cash");
    SolidForMongo("cash");
    MongoNormalAt("cash");
  }

  lemma LongDashIsCounted()
    ensures !NotCounted("cancellation___fee")
  {
    var s, fee := "cancellation___fee", "cancellation_fee";
    LetterMissing(s, "refund", 0);
    LetterMissing(s, "cancellation_charge", 14);
    forall i | 0 <= i <= |s| ensures !StartsAt(s, fee, i) {
      if i + |fee| <= |s| {
        assert s[i..i + |fee|][0] == s[i] && s[i..i + |fee|][13] == s[i + 13];
      }
    }
  }

  lemma AuditIgnoresDashed()
    ensures Candidates(Paid(DASHED, "cash", 10.0)).0 == 0
  {
    var e := PaymentEntry(DASHED, "cash", 10.0, None);
    DashedForAudit();
    FeeIsNotCounted();
    SingleEntry(e);
  }

  lemma ReportCountsDashed()
    ensures Countable(PaymentEntry(DASHED, "cash", 10.0, None))
  {
    DashedForReport();
    LongDashIsCounted();
    CashIsCash();
  }

  lemma SingleSum(e: PaymentEntry)
    requires Countable(e)
    ensures SumWhere([e], CountableEntry()) == e.amount
  {
    assert [e][..0] == [];
  }

  lemma TenIsWhole(title: string, via: string)
    ensures WholePaiseRecord(Paid(title, via, 10.0))
  {
    assert MoneyToPaise(10.0) == 1000;
  }

  lemma ReportShows(title: string, via: string, amount: real)
    requires Countable(PaymentEntry(title, via, amount, None))
    ensures Eval(RECEIVED, EnvOf(Paid(title, via, amount))) == Num(amount)
  {
    ReceivedOfHistory(Paid(title, via, amount));
    SingleSum(PaymentEntry(title, via, amount, None));
  }

  /** A label with several separators in a row is a cancellation fee to the audit and a payment
      to the report. */
  lemma SeparatorRunsDisagree() returns (o: Order)
    ensures WholePaiseRecord(o) && Candidates(o).0 == 0 && Eval(RECEIVED, EnvOf(o)) == Num(10.0)
  {
    o := Paid(DASHED, "cash", 10.0);
    TenIsWhole(DASHED, "cash");
    AuditIgnoresDashed();
    ReportCountsDashed();
    ReportShows(DASHED, "cash", 10.0);
  }

  const TABBED := "cancellation\tfee"

  lemma AuditIgnoresTabbed()
    ensures Candidates(Paid(TABBED, "cash", 10.0)).0 == 0
  {
    var e := PaymentEntry(TABBED, "cash", 10.0, None);
    TrimOfSolid(TABBED);
    assert Lower(TABBED) == TABBED == "cancellation" + "\t" + "fee";
    assert "cancellation" + ['_'] + "fee" == "cancellation_fee";
    CollapseJoins("cancellation", "\t", "fee");
    FeeIsNotCounted();
    SingleEntry(e);
  }

  lemma TabbedForReport()
    ensures MongoNormal(TABBED) == TABBED && !NotCounted(TABBED)
  {
    SolidForMongo(TABBED);
    MongoNormalAt(TABBED);
    LetterMissing(TABBED, "refund", 0);
    LetterMissing(TABBED, "cancellation_fee", 12);
    LetterMissing(TABBED, "cancellation_charge", 12);
  }

  lemma ReportCountsTabbed()
    ensures Countable(PaymentEntry(TABBED, "cash", 10.0, None))
  {
    TabbedForReport();
    CashIsCash();
  }

  /** So is a label with a single tab in it. */
  lemma TabsDisagree() returns (o: Order)
    ensures WholePaiseRecord(o) && Candidates(o).0 == 0 && Eval(RECEIVED, EnvOf(o)) == Num(10.0)
  {
    o := Paid(TABBED, "cash", 10.0);
    TenIsWhole(TABBED, "cash");
    AuditIgnoresTabbed();
    ReportCountsTabbed();
    ReportShows(TABBED, "cash", 10.0);
  }
}
