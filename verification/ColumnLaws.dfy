/** What each payment column of the reports shows, with the method texts and label tokens written
    out and the record's own amounts. */
module ColumnLaws {
  import opened Wrappers
  import opened PaymentText
  import opened Expressions
  import opened TextAgreement
  import opened OrderIssues
  import opened PaymentExpr

  datatype Column = CashColumn | UpiColumn | OnlineColumn | BankColumn

  /** The method texts that belong to a column. */
  predicate BelongsTo(text: string, column: Column) {
    match column
    case CashColumn => text == "cash" || text == "cod"
    case UpiColumn => text == "upi"
    case OnlineColumn => text == "online" || text == "card" || text == "other" || text == "wallet"
    case BankColumn => text == "bank_transfer" || text == "bank"
  }

  /** The word stands in the text between underscores or ends. */
  ghost predicate Token(s: string, word: string) {
    exists a, b :: Between(s, a, word, b)
  }

  predicate Between(s: string, a: string, word: string, b: string) {
    s == a + word + b && (a != "" ==> a[|a| - 1] == '_') && (b != "" ==> b[0] == '_')
  }

  /** An entry's column text: its method, or without one the first known word of its label, or the
      whole label. */
  ghost predicate ColumnText(e: PaymentEntry, text: string) {
    var title, via := MongoNormal(e.title), MongoNormal(e.via);
    if via != "" then text == via
    else if Token(title, "upi") then text == "upi"
    else if Token(title, "bank") || Token(title, "bank_transfer") then text == "bank_transfer"
    else if Token(title, "card") then text == "card"
    else if Token(title, "wallet") then text == "wallet"
    else if Token(title, "online") then text == "online"
    else if Token(title, "cash") || Token(title, "cod") then text == "cash"
    else text == title
  }

  ghost predicate Has(s: string, word: string) {
    exists a: string, b: string :: s == a + word + b
  }

  /** A payment counts if it is positive or a reconciliation adjustment, and no tip, refund or fee. */
  ghost predicate IsPayment(e: PaymentEntry) {
    var title, via := MongoNormal(e.title), MongoNormal(e.via);
    && (e.amount > 0.0 || (title == "reconciliation_adjustment" && e.amount != 0.0))
    && title != "tip" && via != "tip" && via != "tips"
    && !Has(title, "refund") && !Has(title, "cancellation_fee") && !Has(title, "cancellation_charge")
  }

  /** The payments of a history that belong to the column. */
  ghost function ColumnSum(history: seq<PaymentEntry>, column: Column): real {
    if history == [] then 0.0
    else
      var e := history[|history| - 1];
      ColumnSum(history[..|history| - 1], column)
      + if IsPayment(e) && exists text :: ColumnText(e, text) && BelongsTo(text, column) then e.amount else 0.0
  }

  function ColumnOf(column: Column): Expr {
    match column
    case CashColumn => CASH
    case UpiColumn => UPI
    case OnlineColumn => ONLINE
    case BankColumn => BANK
  }

  function MethodsOf(column: Column): seq<string> {
    match column
    case CashColumn => CASH_METHODS
    case UpiColumn => UPI_METHODS
    case OnlineColumn => ONLINE_METHODS
    case BankColumn => BANK_METHODS
  }

  lemma MethodsAre(text: string, column: Column)
    ensures text in MethodsOf(column) <==> BelongsTo(text, column)
  {
  }

  lemma TokenIs(s: string, word: string)
    ensures HasToken(s, word) <==> Token(s, word)
  {
    if HasToken(s, word) {
      var i :| 0 <= i <= |s| && TokenAt(s, word, i);
      assert Between(s, s[..i], word, s[i + |word|..]);
    }
    if Token(s, word) {
      var a, b :| Between(s, a, word, b);
      assert s[|a|..|a| + |word|] == word;
      assert TokenAt(s, word, |a|);
    }
  }

  lemma HasIs(s: string, word: string)
    ensures Contains(s, word) <==> Has(s, word)
  {
    if Contains(s, word) {
      var i :| 0 <= i <= |s| && StartsAt(s, word, i);
      assert s == s[..i] + word + s[i + |word|..];
    }
    if a: string, b: string :| s == a + word + b {
      assert s[|a|..|a| + |word|] == word;
      assert StartsAt(s, word, |a|);
    }
  }

  lemma TextIs(e: PaymentEntry, text: string)
    ensures ColumnText(e, text) <==> text == BucketOf(e)
  {
    hide MongoNormal, Token, HasToken;
    var title := MongoNormal(e.title);
    TokenIs(title, "upi");
    TokenIs(title, "bank");
    TokenIs(title, "bank_transfer");
    TokenIs(title, "card");
    TokenIs(title, "wallet");
    TokenIs(title, "online");
    TokenIs(title, "cash");
    TokenIs(title, "cod");
  }

  lemma PaymentIs(e: PaymentEntry)
    ensures Countable(e) <==> IsPayment(e)
  {
    hide MongoNormal, Has, Contains;
    var title := MongoNormal(e.title);
    HasIs(title, "refund");
    HasIs(title, "cancellation_fee");
    HasIs(title, "cancellation_charge");
  }

  lemma {:induction false} SumIs(history: seq<PaymentEntry>, column: Column)
    ensures SumWhere(history, InBucket(MethodsOf(column))) == ColumnSum(history, column)
  {
    hide Countable, IsPayment, BucketOf, ColumnText, BelongsTo, MethodsOf;
    if history != [] {
      var e := history[|history| - 1];
      SumIs(history[..|history| - 1], column);
      PaymentIs(e);
      MethodsAre(BucketOf(e), column);
      forall text: string ensures ColumnText(e, text) <==> text == BucketOf(e) {
        TextIs(e, text);
      }
    }
  }

  /** With a history each column is the sum of the payments that belong to it. */
  lemma HistoryColumns(o: Order, column: Column)
    requires o.payment.history != []
    ensures Eval(ColumnOf(column), EnvOf(o)) == Num(ColumnSum(o.payment.history, column))
  {
    hide MethodTotal, SumWhere, ColumnSum, InBucket;
    HistoryFound(o, EnvOf(o));
    BucketIs(o, MethodsOf(column));
    SumIs(o.payment.history, column);
    ColumnChooses(o, column);
  }

  lemma ColumnChooses(o: Order, column: Column)
    requires o.payment.history != []
    ensures Eval(ColumnOf(column), EnvOf(o)) == Eval(MethodTotal(MethodsOf(column)), EnvOf(o))
  {
    hide MethodTotal, HAS_HISTORY, LEGACY_COD, LEGACY_UPI, LEGACY_ONLINE, LEGACY_BANK, RemainingFor, RemainingOr, REMAINING_ONLINE;
    HistoryFound(o, EnvOf(o));
  }

  /** The amounts a record without a history holds; a missing one is nothing. */
  predicate Recorded(o: Order, paid: real, cod: real, upi: real, online: real, bank: real) {
    var p := o.payment;
    && (if p.actualPaid.Some? then paid == p.actualPaid.value else if p.amountPaid.Some? then paid == p.amountPaid.value else paid == 0.0)
    && (if p.cod.Some? then cod == p.cod.value else cod == o.codCollected)
    && (if p.upi.Some? then upi == p.upi.value else upi == 0.0)
    && (if p.online.Some? then online == p.online.value else online == 0.0)
    && (if p.bank.Some? then bank == p.bank.value else bank == 0.0)
  }

  /** Without one, cash and UPI are their recorded parts and, under their methods, what was paid
      beyond both; the other two columns are that rest under their methods, or their recorded parts
      when there is no rest. */
  lemma LegacyColumns(o: Order, paid: real, cod: real, upi: real, online: real, bank: real)
    requires o.payment.history == [] && Recorded(o, paid, cod, upi, online, bank)
    ensures var env, m, rest := EnvOf(o), MongoNormal(o.payment.via), paid - cod - upi;
            && Eval(RECEIVED, env) == Num(if paid > 0.0 then paid else cod + upi + online + bank)
            && Eval(CASH, env) == Num(cod + if rest > 0.0 && (m == "cash" || m == "cod") then rest else 0.0)
            && Eval(UPI, env) == Num(upi + if rest > 0.0 && m == "upi" then rest else 0.0)
            && Eval(BANK, env) == Num(if rest <= 0.0 then bank else if m == "bank" || m == "bank_transfer" then rest else 0.0)
            && Eval(ONLINE, env) == Num(if rest <= 0.0 then online
                                        else if m == "cash" || m == "cod" || m == "upi" || m == "bank" || m == "bank_transfer" then 0.0 else rest)
  {
    hide MongoNormal, Eval;
    LegacySplitIs(o);
    LegacyRestIs(o);
    LegacyTotalIs(o);
    MethodsAre(LegacyMethod(o), CashColumn);
    MethodsAre(LegacyMethod(o), UpiColumn);
    MethodsAre(LegacyMethod(o), BankColumn);
    OfflineIsTheRest(LegacyMethod(o));
  }

  lemma LegacyTotalIs(o: Order)
    requires o.payment.history == []
    ensures Eval(RECEIVED, EnvOf(o)) == Num(LegacyTotal(o))
  {
    hide LEGACY_RECEIVED, TotalOf, COUNTABLE, HAS_HISTORY;
    HistoryFound(o, EnvOf(o));
    LegacyReceivedIs(o);
  }
}
