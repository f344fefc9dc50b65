/** The part of MongoDB's aggregation language the payment reports use: expressions over a
    document, and what they evaluate to. */
module Expressions {
  import opened PaymentText

  /** The document fields the payment expressions name. */
  datatype FieldName =
    | PaymentF | HistoryF | MethodF | LabelF | AmountF | ActualPaidAmount | AmountPaid
    | CodAmount | UpiAmount | OnlineAmount | BankTransferAmount | CodCollectedAmount

  /** `Null` stands for a missing field too. */
  datatype Value =
    | Null
    | Num(number: real)
    | Text(text: string)
    | Bool(truth: bool)
    | List(items: seq<Value>)
    | Doc(fields: map<FieldName, Value>)

  /** `Words` matches any of its words anywhere; `Tokens` only between underscores or ends. */
  datatype Pattern = Words(words: seq<string>) | Tokens(words: seq<string>)

  datatype Expr =
    | Lit(value: Value)
    | Field(path: seq<FieldName>)
    | This(name: FieldName)
    | Accumulated
    | IfNull(of: Expr, otherwise: Expr)
    | Cond(test: Expr, yes: Expr, no: Expr)
    | Add(left: Expr, right: Expr)
    | Subtract(left: Expr, right: Expr)
    | Max(left: Expr, right: Expr)
    | Gt(left: Expr, right: Expr)
    | Eq(left: Expr, right: Expr)
    | And(left: Expr, right: Expr)
    | Or(left: Expr, right: Expr)
    | Not(of: Expr)
    | In(of: Expr, choices: seq<string>)
    | ToLower(of: Expr)
    | TrimText(of: Expr)
    | ReplaceAll(of: Expr, find: char, replacement: char)
    | RegexMatch(of: Expr, pattern: Pattern)
    | Size(of: Expr)
    | Reduce(of: Expr, initial: Expr, body: Expr)

  datatype Env = Env(root: Value, item: Value, accumulated: Value)

  function Lookup(v: Value, path: seq<FieldName>): Value {
    if path == [] then v
    else if v.Doc? && path[0] in v.fields then Lookup(v.fields[path[0]], path[1..])
    else Null
  }

  /** The characters `$trim` removes by default, as far as Latin-1 goes. */
  predicate MongoBlank(c: char) {
    c == '\U{0000}' || c == ' ' || c == '\t' || c == '\n' || c == '\U{000B}' || c == '\U{000C}' || c == '\r' || c == '\U{00A0}'
  }

  function MongoTrimLeft(s: string): string {
    if s != [] && MongoBlank(s[0]) then MongoTrimLeft(s[1..]) else s
  }

  function MongoTrimRight(s: string): string {
    if s != [] && MongoBlank(s[|s| - 1]) then MongoTrimRight(s[..|s| - 1]) else s
  }

  function MongoTrim(s: string): string {
    MongoTrimRight(MongoTrimLeft(s))
  }

  /** `$toLower` knows the ASCII letters only. */
  function MongoLowerChar(c: char): char {
    if 'A' <= c <= 'Z' then c - 'A' + 'a' else c
  }

  function MongoLower(s: string): (r: string)
    ensures |r| == |s| && forall i :: 0 <= i < |s| ==> r[i] == MongoLowerChar(s[i])
  {
    seq(|s|, i requires 0 <= i < |s| => MongoLowerChar(s[i]))
  }

  function ReplaceChar(s: string, find: char, replacement: char): (r: string)
    ensures |r| == |s| && forall i :: 0 <= i < |s| ==> r[i] == if s[i] == find then replacement else s[i]
  {
    seq(|s|, i requires 0 <= i < |s| => if s[i] == find then replacement else s[i])
  }

  predicate TokenAt(s: string, word: string, i: nat) {
    && StartsAt(s, word, i)
    && (i == 0 || s[i - 1] == '_')
    && (i + |word| == |s| || s[i + |word|] == '_')
  }

  predicate HasToken(s: string, word: string) {
    exists i :: 0 <= i <= |s| && TokenAt(s, word, i)
  }

  predicate Matches(p: Pattern, s: string) {
    match p
    case Words(words) => exists i :: 0 <= i < |words| && Contains(s, words[i])
    case Tokens(words) => exists i :: 0 <= i < |words| && HasToken(s, words[i])
  }

  function Number(v: Value): real {
    if v.Num? then v.number else 0.0
  }

  function TextOf(v: Value): string {
    if v.Text? then v.text else ""
  }

  predicate Truth(v: Value) {
    match v
    case Null => false
    case Bool(b) => b
    case Num(n) => n != 0.0
    case _ => true
  }

  /** BSON orders a missing value below every number. */
  predicate Greater(a: Value, b: Value) {
    a.Num? && (b == Null || (b.Num? && a.number > b.number))
  }

  function Arithmetic(a: Value, b: Value, sum: real): Value {
    if a.Num? && b.Num? then Num(sum) else Null
  }

  function Eval(e: Expr, env: Env): Value
    decreases e, 0
  {
    match e
    case Lit(v) => v
    case Field(path) => Lookup(env.root, path)
    case This(name) => Lookup(env.item, [name])
    case Accumulated => env.accumulated
    case IfNull(of, otherwise) => if Eval(of, env) == Null then Eval(otherwise, env) else Eval(of, env)
    case Cond(test, yes, no) => if Truth(Eval(test, env)) then Eval(yes, env) else Eval(no, env)
    case Add(l, r) => Arithmetic(Eval(l, env), Eval(r, env), Number(Eval(l, env)) + Number(Eval(r, env)))
    case Subtract(l, r) => Arithmetic(Eval(l, env), Eval(r, env), Number(Eval(l, env)) - Number(Eval(r, env)))
    case Max(l, r) => if Greater(Eval(l, env), Eval(r, env)) then Eval(l, env) else Eval(r, env)
    case Gt(l, r) => Bool(Greater(Eval(l, env), Eval(r, env)))
    case Eq(l, r) => Bool(Eval(l, env) == Eval(r, env))
    case And(l, r) => Bool(Truth(Eval(l, env)) && Truth(Eval(r, env)))
    case Or(l, r) => Bool(Truth(Eval(l, env)) || Truth(Eval(r, env)))
    case Not(of) => Bool(!Truth(Eval(of, env)))
    case In(of, choices) => Bool(Eval(of, env).Text? && Eval(of, env).text in choices)
    case ToLower(of) => Text(MongoLower(TextOf(Eval(of, env))))
    case TrimText(of) => Text(MongoTrim(TextOf(Eval(of, env))))
    case ReplaceAll(of, find, replacement) => Text(ReplaceChar(TextOf(Eval(of, env)), find, replacement))
    case RegexMatch(of, pattern) => Bool(Matches(pattern, TextOf(Eval(of, env))))
    case Size(of) => Num(if Eval(of, env).List? then |Eval(of, env).items| as real else 0.0)
    case Reduce(of, initial, body) =>
      if Eval(of, env).List? then Fold(body, Eval(of, env).items, Eval(initial, env), env.root) else Null
  }

  /** `$reduce`: the body over each item, with `$$value` the result so far. */
  function Fold(body: Expr, items: seq<Value>, initial: Value, root: Value): Value
    decreases body, |items|
  {
    if items == [] then initial
    else
      var n := |items| - 1;
      Eval(body, Env(root, items[n], Fold(body, items[..n], initial, root)))
  }
}
