/** `FilterBuilder` and `SortBuilder`: fluent builders for the service's
    `where` and `sort` query strings. A filter is an ordered list of tokens
    (conditions, group openings and group closings) with a counter of open
    groups; a sort is an ordered list of (field, direction) pairs. Both
    render by plain string conversion, without escaping. */
module Filters {
  import opened Wrappers
  import opened Data
  import Text

  // ---------------------------------------------------------------------
  // Operators and rendering
  // ---------------------------------------------------------------------

  /** The supported comparison operators, under their Python names. */
  datatype Operator =
    | Eq | Neq | Gt | Gte | Lt | Lte | Like | Nlike
    | In | Notin | Btw | Nbtw
    | Null | Notnull | Checked | Notchecked | Isblank | Isnotblank

  function OperatorName(o: Operator): string {
    match o
    case Eq => "eq"
    case Neq => "neq"
    case Gt => "gt"
    case Gte => "gte"
    case Lt => "lt"
    case Lte => "lte"
    case Like => "like"
    case Nlike => "nlike"
    case In => "in"
    case Notin => "notin"
    case Btw => "btw"
    case Nbtw => "nbtw"
    case Null => "null"
    case Notnull => "notnull"
    case Checked => "checked"
    case Notchecked => "notchecked"
    case Isblank => "isblank"
    case Isnotblank => "isnotblank"
  }

  /** Looks an operator name up; `None` for an unsupported one. */
  function ParseOperator(op: string): (r: Option<Operator>)
    ensures r.Some? ==> OperatorName(r.value) == op
    ensures r.None? ==> forall o: Operator :: OperatorName(o) != op
  {
    if op == "eq" then Some(Eq)
    else if op == "neq" then Some(Neq)
    else if op == "gt" then Some(Gt)
    else if op == "gte" then Some(Gte)
    else if op == "lt" then Some(Lt)
    else if op == "lte" then Some(Lte)
    else if op == "like" then Some(Like)
    else if op == "nlike" then Some(Nlike)
    else if op == "in" then Some(In)
    else if op == "notin" then Some(Notin)
    else if op == "btw" then Some(Btw)
    else if op == "nbtw" then Some(Nbtw)
    else if op == "null" then Some(Null)
    else if op == "notnull" then Some(Notnull)
    else if op == "checked" then Some(Checked)
    else if op == "notchecked" then Some(Notchecked)
    else if op == "isblank" then Some(Isblank)
    else if op == "isnotblank" then Some(Isnotblank)
    else None
  }

  /** Every operator is found under its own name. */
  lemma ParseOperatorName(o: Operator)
    ensures ParseOperator(OperatorName(o)) == Some(o)
  {
  }

  /** Operators that take no value: the value argument is ignored. */
  predicate IsUnary(o: Operator) {
    o.Null? || o.Notnull? || o.Checked? || o.Notchecked? || o.Isblank? || o.Isnotblank?
  }

  /** The operator as it appears in the query string: the two blank tests
      are spelled `blank`/`notblank` there, every other operator by its
      name. */
  function OperatorToken(o: Operator): string {
    match o
    case Isblank => "blank"
    case Isnotblank => "notblank"
    case _ => OperatorName(o)
  }

  /** The prefix that joins a condition to what precedes it. */
  datatype Connector = Lead | AndC | OrC | NotC

  function ConnectorText(c: Connector): string {
    match c
    case Lead => ""
    case AndC => "~and"
    case OrC => "~or"
    case NotC => "~not"
  }

  /** A condition's value as text: `str()` of a scalar, or the `str()` of
      every element joined by commas for a list (`in`, `notin`, `btw`,
      `nbtw`). Nothing is escaped. */
  function ValueText(v: Value): string {
    if v.VList? then Text.Join(",", seq(|v.items|, k requires 0 <= k < |v.items| => PyStr(v.items[k])))
    else PyStr(v)
  }

  datatype Token =
    | Cond(connector: Connector, field: string, op: Operator, value: Value)
    | Open
    | Close

  /** `(field,op,value)`, or `(field,op)` for a unary operator. */
  function CondText(field: string, op: Operator, value: Value): string
  {
    "(" + CondBody(field, op, value) + ")"
  }

  function CondBody(field: string, op: Operator, value: Value): string
  {
    field + "," + OperatorToken(op) + (if IsUnary(op) then "" else "," + ValueText(value))
  }

  function TokenText(t: Token): string
  {
    match t
    case Cond(c, f, op, v) => ConnectorText(c) + CondText(f, op, v)
    case Open => "("
    case Close => ")"
  }

  /** The filter string: every token's text, in order. */
  function Render(tokens: seq<Token>): string
  {
    if tokens == [] then "" else TokenText(tokens[0]) + Render(tokens[1..])
  }

  /** Rendering is a homomorphism: chained calls render in call order. */
  lemma {:induction false} RenderAppend(a: seq<Token>, b: seq<Token>)
    ensures Render(a + b) == Render(a) + Render(b)
  {
    if a == [] {
      assert a + b == b;
    } else {
      assert (a + b)[1..] == a[1..] + b;
      RenderAppend(a[1..], b);
    }
  }

  lemma RenderSnoc(tokens: seq<Token>, t: Token)
    ensures Render(tokens + [t]) == Render(tokens) + TokenText(t)
  {
    RenderAppend(tokens, [t]);
    assert [t][1..] == [];
  }

  // ---------------------------------------------------------------------
  // Group nesting
  // ---------------------------------------------------------------------

  /** Open groups after the tokens: openings minus closings. */
  function Depth(tokens: seq<Token>): int {
    if tokens == [] then 0 else Depth(tokens[..|tokens| - 1]) + DepthChange(tokens[|tokens| - 1])
  }

  function DepthChange(t: Token): int {
    match t
    case Open => 1
    case Close => -1
    case Cond(_, _, _, _) => 0
  }

  lemma DepthSnoc(tokens: seq<Token>, t: Token)
    ensures Depth(tokens + [t]) == Depth(tokens) + DepthChange(t)
  {
    assert (tokens + [t])[..|tokens|] == tokens;
  }

  /** No prefix closes more groups than it opened. */
  predicate WellNested(tokens: seq<Token>) {
    Depth(tokens) >= 0 && (tokens == [] || WellNested(tokens[..|tokens| - 1]))
  }

  /** Every prefix of well-nested tokens has a non-negative depth. */
  lemma {:induction false} WellNestedPrefix(tokens: seq<Token>, k: nat)
    requires WellNested(tokens)
    requires k <= |tokens|
    ensures Depth(tokens[..k]) >= 0
    decreases |tokens|
  {
    if k == |tokens| {
      assert tokens[..k] == tokens;
    } else {
      var init := tokens[..|tokens| - 1];
      WellNestedPrefix(init, k);
      assert init[..k] == tokens[..k];
    }
  }

  lemma WellNestedAppend(tokens: seq<Token>, t: Token)
    requires WellNested(tokens)
    requires Depth(tokens) + DepthChange(t) >= 0
    ensures WellNested(tokens + [t])
  {
    DepthSnoc(tokens, t);
    assert (tokens + [t])[..|tokens|] == tokens;
  }

  // ---------------------------------------------------------------------
  // Errors
  // ---------------------------------------------------------------------

  datatype BuildError =
    | UnsupportedOperator(op: string)
    | NoGroupToClose
    | UnclosedGroups
    | InvalidDirection(direction: string)

  /** The `ValueError` message. Only the fixed part of each message is known;
      the unsupported operator and the rejected direction are appended. */
  function Message(e: BuildError): string {
    match e
    case UnsupportedOperator(op) => "Unsupported operator: " + op
    case NoGroupToClose => "No group to close"
    case UnclosedGroups => "Unclosed groups"
    case InvalidDirection(_) => "Direction must be 'asc' or 'desc'"
  }

  // ---------------------------------------------------------------------
  // FilterBuilder
  // ---------------------------------------------------------------------

  class FilterBuilder {
    var tokens: seq<Token>
    var openGroups: int

    ghost predicate Valid()
      reads this
    {
      && WellNested(tokens)
      && openGroups == Depth(tokens)
      && openGroups >= 0
    }

    constructor ()
      ensures Valid()
      ensures tokens == [] && openGroups == 0
    {
      tokens := [];
      openGroups := 0;
    }

    /** The common body of `where`, `and_`, `or_` and `not_`: reject an
        unknown operator before anything is appended. */
    method AddCondition(connector: Connector, field: string, op: string, value: Value)
      returns (r: Result<(), BuildError>)
      requires Valid()
      modifies this
      ensures Valid()
      ensures openGroups == old(openGroups)
      ensures ParseOperator(op).Some? ==>
        r.Ok? && tokens == old(tokens) + [Cond(connector, field, ParseOperator(op).value, value)]
      ensures ParseOperator(op).None? ==> r == Err(UnsupportedOperator(op)) && tokens == old(tokens)
    {
      var o := ParseOperator(op);
      if o.None? {
        return Err(UnsupportedOperator(op));
      }
      var t := Cond(connector, field, o.value, value);
      DepthSnoc(tokens, t);
      WellNestedAppend(tokens, t);
      tokens := tokens + [t];
      return Ok(());
    }

    method Where(field: string, op: string, value: Value) returns (r: Result<(), BuildError>)
      requires Valid()
      modifies this
      ensures Valid()
      ensures openGroups == old(openGroups)
      ensures ParseOperator(op).Some? ==>
        r.Ok? && tokens == old(tokens) + [Cond(Lead, field, ParseOperator(op).value, value)]
      ensures ParseOperator(op).None? ==> r == Err(UnsupportedOperator(op)) && tokens == old(tokens)
    {
      r := AddCondition(Lead, field, op, value);
    }

    method And(field: string, op: string, value: Value) returns (r: Result<(), BuildError>)
      requires Valid()
      modifies this
      ensures Valid()
      ensures openGroups == old(openGroups)
      ensures ParseOperator(op).Some? ==>
        r.Ok? && tokens == old(tokens) + [Cond(AndC, field, ParseOperator(op).value, value)]
      ensures ParseOperator(op).None? ==> r == Err(UnsupportedOperator(op)) && tokens == old(tokens)
    {
      r := AddCondition(AndC, field, op, value);
    }

    method Or(field: string, op: string, value: Value) returns (r: Result<(), BuildError>)
      requires Valid()
      modifies this
      ensures Valid()
      ensures openGroups == old(openGroups)
      ensures ParseOperator(op).Some? ==>
        r.Ok? && tokens == old(tokens) + [Cond(OrC, field, ParseOperator(op).value, value)]
      ensures ParseOperator(op).None? ==> r == Err(UnsupportedOperator(op)) && tokens == old(tokens)
    {
      r := AddCondition(OrC, field, op, value);
    }

    method Not(field: string, op: string, value: Value) returns (r: Result<(), BuildError>)
      requires Valid()
      modifies this
      ensures Valid()
      ensures openGroups == old(openGroups)
      ensures ParseOperator(op).Some? ==>
        r.Ok? && tokens == old(tokens) + [Cond(NotC, field, ParseOperator(op).value, value)]
      ensures ParseOperator(op).None? ==> r == Err(UnsupportedOperator(op)) && tokens == old(tokens)
    {
      r := AddCondition(NotC, field, op, value);
    }

    method GroupStart()
      requires Valid()
      modifies this
      ensures Valid()
      ensures tokens == old(tokens) + [Open] && openGroups == old(openGroups) + 1
    {
      DepthSnoc(tokens, Open);
      WellNestedAppend(tokens, Open);
      tokens := tokens + [Open];
      openGroups := openGroups + 1;
    }

    /** Fails, changing nothing, when no group is open. */
    method GroupEnd() returns (r: Result<(), BuildError>)
      requires Valid()
      modifies this
      ensures Valid()
      ensures old(openGroups) == 0 ==> r == Err(NoGroupToClose) && tokens == old(tokens) && openGroups == 0
      ensures old(openGroups) > 0 ==>
        r.Ok? && tokens == old(tokens) + [Close] && openGroups == old(openGroups) - 1
    {
      if openGroups == 0 {
        return Err(NoGroupToClose);
      }
      DepthSnoc(tokens, Close);
      WellNestedAppend(tokens, Close);
      tokens := tokens + [Close];
      openGroups := openGroups - 1;
      return Ok(());
    }

    /** The filter string; fails while a group is open. Building does not
        change the builder. */
    function Build(): (r: Result<string, BuildError>)
      reads this
      requires Valid()
      ensures r.Ok? <==> openGroups == 0
      ensures r.Err? ==> r.error == UnclosedGroups
      ensures tokens == [] ==> r == Ok("")
    {
      if openGroups != 0 then Err(UnclosedGroups) else Ok(Render(tokens))
    }

    method Reset()
      modifies this
      ensures Valid()
      ensures tokens == [] && openGroups == 0
    {
      tokens := [];
      openGroups := 0;
    }
  }

  // ---------------------------------------------------------------------
  // Parenthesis balance of the rendered filter
  // ---------------------------------------------------------------------

  function ParenDelta(c: char): int {
    if c == '(' then 1 else if c == ')' then -1 else 0
  }

  /** Opening minus closing parentheses in `s`. */
  function Balance(s: string): int {
    if s == [] then 0 else ParenDelta(s[0]) + Balance(s[1..])
  }

  /** Scanning `s` from nesting level `d`, the level never drops below zero. */
  predicate NeverBelow(s: string, d: int) {
    d >= 0 && (s == [] || NeverBelow(s[1..], d + ParenDelta(s[0])))
  }

  /** The parentheses of `s` pair up. */
  predicate Balanced(s: string) {
    Balance(s) == 0 && NeverBelow(s, 0)
  }

  lemma {:induction false} BalanceAppend(a: string, b: string)
    ensures Balance(a + b) == Balance(a) + Balance(b)
  {
    if a == [] {
      assert a + b == b;
    } else {
      assert (a + b)[1..] == a[1..] + b;
      BalanceAppend(a[1..], b);
    }
  }

  lemma {:induction false} NeverBelowAppend(a: string, b: string, d: int)
    ensures NeverBelow(a + b, d) <==> NeverBelow(a, d) && NeverBelow(b, d + Balance(a))
  {
    if a == [] {
      assert a + b == b;
    } else {
      assert (a + b)[1..] == a[1..] + b;
      NeverBelowAppend(a[1..], b, d + ParenDelta(a[0]));
    }
  }

  predicate ParenFree(s: string) {
    '(' !in s && ')' !in s
  }

  lemma {:induction false} ParenFreeLevel(s: string, d: int)
    requires ParenFree(s)
    requires d >= 0
    ensures Balance(s) == 0 && NeverBelow(s, d)
  {
    if s != [] {
      assert s[0] in s;
      assert forall c :: c in s[1..] ==> c in s;
      ParenFreeLevel(s[1..], d);
    }
  }

  /** The field and the value text of a condition hold no parenthesis. */
  predicate PlainCondition(t: Token) {
    t.Cond? ==> ParenFree(t.field) && ParenFree(ValueText(t.value))
  }

  lemma OperatorTokenPlain(o: Operator)
    ensures ParenFree(OperatorToken(o))
  {
  }

  lemma ConnectorPlain(c: Connector)
    ensures ParenFree(ConnectorText(c))
  {
  }

  /** A parenthesis-free text between one pair of parentheses. */
  lemma {:induction false} Wrapped(inner: string, d: int)
    requires ParenFree(inner)
    requires d >= 0
    ensures Balance("(" + inner + ")") == 0 && NeverBelow("(" + inner + ")", d)
  {
    var w := "(" + inner + ")";
    assert w[0] == '(' && w[1..] == inner + ")";
    ParenFreeLevel(inner, d + 1);
    BalanceAppend(inner, ")");
    NeverBelowAppend(inner, ")", d + 1);
    assert NeverBelow(")", d + 1) by {
      assert ")"[1..] == "";
    }
  }

  lemma GroupTokenLevel(t: Token, d: int)
    requires !t.Cond?
    requires d >= 0 && d + DepthChange(t) >= 0
    ensures Balance(TokenText(t)) == DepthChange(t) && NeverBelow(TokenText(t), d)
  {
    assert Balance("") == 0 && NeverBelow("", d + DepthChange(t));
    if t.Open? {
      assert TokenText(t) == "(" && "("[1..] == "";
    } else {
      assert TokenText(t) == ")" && ")"[1..] == "";
    }
  }

  lemma CondTextBalanced(t: Token, d: int)
    requires t.Cond? && PlainCondition(t)
    requires d >= 0
    ensures Balance(TokenText(t)) == 0 && NeverBelow(TokenText(t), d)
  {
    var inner := CondBody(t.field, t.op, t.value);
    assert ParenFree(inner) by {
      OperatorTokenPlain(t.op);
    }
    ConnectorPlain(t.connector);
    Wrapped(inner, d);
    var lead := ConnectorText(t.connector);
    ParenFreeLevel(lead, d);
    BalanceAppend(lead, "(" + inner + ")");
    NeverBelowAppend(lead, "(" + inner + ")", d);
  }

  /** With parenthesis-free fields and values, the rendered filter's nesting
      level follows the open-group count token by token. */
  lemma {:induction false} RenderLevel(tokens: seq<Token>)
    requires forall i :: 0 <= i < |tokens| ==> PlainCondition(tokens[i])
    requires WellNested(tokens)
    ensures Balance(Render(tokens)) == Depth(tokens)
    ensures NeverBelow(Render(tokens), 0)
  {
    if tokens != [] {
      var init := tokens[..|tokens| - 1];
      var t := tokens[|tokens| - 1];
      assert tokens == init + [t];
      RenderLevel(init);
      var d := Depth(init);
      DepthSnoc(init, t);
      TokenLevel(t, d);
      var a := Render(init);
      var b := TokenText(t);
      RenderSnoc(init, t);
      assert Render(tokens) == a + b;
      BalanceAppend(a, b);
      NeverBelowAppend(a, b, 0);
      assert NeverBelow(b, 0 + Balance(a));
    }
  }

  /** One token moves the level by its depth change and, from a level its
      change keeps non-negative, never dips below that level. */
  lemma TokenLevel(t: Token, d: int)
    requires PlainCondition(t)
    requires d >= 0 && d + DepthChange(t) >= 0
    ensures Balance(TokenText(t)) == DepthChange(t) && NeverBelow(TokenText(t), d)
  {
    if t.Cond? {
      CondTextBalanced(t, d);
    } else {
      GroupTokenLevel(t, d);
    }
  }

  /** A filter that builds has balanced parentheses, provided no field or
      value contains a parenthesis. */
  lemma BuiltFilterBalanced(b: FilterBuilder)
    requires b.Valid()
    requires forall i :: 0 <= i < |b.tokens| ==> PlainCondition(b.tokens[i])
    ensures b.Build().Ok? <==> b.openGroups == 0
    ensures b.Build().Ok? ==> Balanced(b.Build().value)
  {
    RenderLevel(b.tokens);
  }

  /** A unary operator's condition does not depend on the value passed. */
  lemma UnaryIgnoresValue(c: Connector, field: string, o: Operator, v: Value, w: Value)
    requires IsUnary(o)
    ensures TokenText(Cond(c, field, o, v)) == TokenText(Cond(c, field, o, w))
  {
  }

  /** A list value is its elements' texts joined by commas: splitting it at
      the commas gives them back when no element text holds a comma. */
  lemma ListValueSplit(items: seq<Value>)
    requires items != []
    requires forall k :: 0 <= k < |items| ==> ',' !in PyStr(items[k])
    ensures Text.Split(ValueText(VList(items)), ',') ==
      seq(|items|, k requires 0 <= k < |items| => PyStr(items[k]))
  {
    var texts := seq(|items|, k requires 0 <= k < |items| => PyStr(items[k]));
    Text.SplitJoin(texts, ',');
  }

  lemma RenderPair(t: Token, u: Token)
    ensures Render([t]) == TokenText(t)
    ensures Render([t, u]) == TokenText(t) + TokenText(u)
  {
    assert [t][1..] == [];
    assert [u][1..] == [];
    assert Render([u]) == TokenText(u);
    assert [t, u][1..] == [u];
  }

  lemma LeadEqText(field: string, x: string)
    ensures TokenText(Cond(Lead, field, Eq, VStr(x))) == "(" + (field + ",eq," + x) + ")"
  {
    assert field + "," + "eq" + ("," + x) == field + ",eq," + x;
  }

  lemma OrEqText(field: string, x: string)
    ensures TokenText(Cond(OrC, field, Eq, VStr(x))) == "~or" + ("(" + (field + ",eq," + x) + ")")
  {
    assert field + "," + "eq" + ("," + x) == field + ",eq," + x;
  }

  lemma InjectedText(f: string, x: string, g: string, y: string)
    ensures "(" + (f + (x + ")~or(" + g + y)) + ")" == ("(" + (f + x) + ")") + ("~or" + ("(" + (g + y) + ")"))
  {
    var a := "(" + f + x;
    var b := g + y + ")";
    calc {
      "(" + (f + (x + ")~or(" + g + y)) + ")";
      a + (")~or(" + b);
      { assert ")~or(" == ")" + ("~or" + "("); }
      a + (")" + ("~or" + ("(" + b)));
    }
  }

  /** Values are not escaped: a value can spell out a further condition, so
      two different builders produce the same filter string. */
  lemma InjectedCondition(field: string, x: string, field2: string, y: string)
    ensures var injected := [Cond(Lead, field, Eq, VStr(x + ")~or(" + (field2 + ",eq,") + y))];
      var honest := [Cond(Lead, field, Eq, VStr(x)), Cond(OrC, field2, Eq, VStr(y))];
      && injected != honest
      && Render(injected) == Render(honest)
  {
    var t := Cond(Lead, field, Eq, VStr(x + ")~or(" + (field2 + ",eq,") + y));
    var h0 := Cond(Lead, field, Eq, VStr(x));
    var h1 := Cond(OrC, field2, Eq, VStr(y));
    assert Render([t]) == TokenText(t) by {
      RenderPair(t, t);
    }
    assert Render([h0, h1]) == TokenText(h0) + TokenText(h1) by {
      RenderPair(h0, h1);
    }
    LeadEqText(field, x + ")~or(" + (field2 + ",eq,") + y);
    LeadEqText(field, x);
    OrEqText(field2, y);
    InjectedText(field + ",eq,", x, field2 + ",eq,", y);
  }

  lemma SingleParens()
    ensures Balance("(") == 1 && Balance(")") == -1
  {
    assert "("[1..] == "" && ")"[1..] == "";
  }

  /** A closing parenthesis in a value unbalances the filter string. */
  lemma UnbalancedValue(field: string, x: string)
    requires ParenFree(field) && ParenFree(x)
    ensures Balance(Render([Cond(Lead, field, Eq, VStr(x + ")"))])) == -1
  {
    var t := Cond(Lead, field, Eq, VStr(x + ")"));
    assert Render([t]) == TokenText(t) by {
      RenderPair(t, t);
    }
    LeadEqText(field, x + ")");
    var f := field + ",eq,";
    var b := f + (x + ")");
    assert ParenFree(f);
    ParenFreeLevel(f, 0);
    ParenFreeLevel(x, 0);
    SingleParens();
    BalanceAppend(x, ")");
    BalanceAppend(f, x + ")");
    BalanceAppend("(", b);
    BalanceAppend("(" + b, ")");
  }

  // ---------------------------------------------------------------------
  // SortBuilder
  // ---------------------------------------------------------------------

  datatype Direction = Ascending | Descending

  datatype SortField = SortField(field: string, direction: Direction)

  /** `direction.lower()` must be `asc` or `desc`. */
  function ParseDirection(direction: string): (r: Option<Direction>)
    ensures r == Some(Ascending) <==> Text.Lower(direction) == "asc"
    ensures r == Some(Descending) <==> Text.Lower(direction) == "desc"
  {
    var d := Text.Lower(direction);
    if d == "asc" then Some(Ascending) else if d == "desc" then Some(Descending) else None
  }

  /** `field` ascending, `-field` descending. */
  function SortText(f: SortField): string {
    if f.direction == Ascending then f.field else "-" + f.field
  }

  /** The sort string: the fields' texts joined by commas, in order. */
  function RenderSort(fields: seq<SortField>): string {
    Text.Join(",", seq(|fields|, k requires 0 <= k < |fields| => SortText(fields[k])))
  }

  class SortBuilder {
    var fields: seq<SortField>

    constructor ()
      ensures fields == []
    {
      fields := [];
    }

    method Add(field: string, direction: string) returns (r: Result<(), BuildError>)
      modifies this
      ensures ParseDirection(direction).Some? ==>
        r.Ok? && fields == old(fields) + [SortField(field, ParseDirection(direction).value)]
      ensures ParseDirection(direction).None? ==>
        r == Err(InvalidDirection(direction)) && fields == old(fields)
    {
      var d := ParseDirection(direction);
      if d.None? {
        return Err(InvalidDirection(direction));
      }
      fields := fields + [SortField(field, d.value)];
      return Ok(());
    }

    method Asc(field: string)
      modifies this
      ensures fields == old(fields) + [SortField(field, Ascending)]
    {
      var r := Add(field, "asc");
    }

    method Desc(field: string)
      modifies this
      ensures fields == old(fields) + [SortField(field, Descending)]
    {
      var r := Add(field, "desc");
    }

    function Build(): (r: string)
      reads this
      ensures fields == [] ==> r == ""
    {
      RenderSort(fields)
    }

    method Reset()
      modifies this
      ensures fields == []
    {
      fields := [];
    }
  }

  /** Reads one item of a sort string back. */
  function ParseSortItem(item: string): SortField {
    if item != [] && item[0] == '-' then SortField(item[1..], Descending) else SortField(item, Ascending)
  }

  /** Reads a sort string back into its fields. */
  function ParseSort(s: string): seq<SortField> {
    if s == "" then []
    else
      var items := Text.Split(s, ',');
      seq(|items|, k requires 0 <= k < |items| => ParseSortItem(items[k]))
  }

  /** A field name the sort string can carry unambiguously. */
  predicate PlainSortField(name: string) {
    name != [] && name[0] != '-' && ',' !in name
  }

  /** The sort string loses nothing: reading it back gives the fields, in
      order, when no field name is empty, starts with `-` or contains a
      comma. */
  lemma SortRoundTrip(fields: seq<SortField>)
    requires forall k :: 0 <= k < |fields| ==> PlainSortField(fields[k].field)
    ensures ParseSort(RenderSort(fields)) == fields
  {
    var texts := seq(|fields|, k requires 0 <= k < |fields| => SortText(fields[k]));
    if fields != [] {
      forall k | 0 <= k < |texts| ensures ',' !in texts[k] {
        assert texts[k] == SortText(fields[k]);
      }
      Text.SplitJoin(texts, ',');
      assert RenderSort(fields) != "" by {
        JoinNonEmpty(texts);
      }
      forall k | 0 <= k < |fields| ensures ParseSortItem(texts[k]) == fields[k] {
        var f := fields[k];
        if f.direction == Descending {
          assert texts[k] == "-" + f.field;
          assert texts[k][1..] == f.field;
        }
      }
    }
  }

  lemma {:induction false} JoinNonEmpty(xs: seq<string>)
    requires xs != [] && xs[0] != []
    ensures Text.Join(",", xs) != []
  {
  }
}
