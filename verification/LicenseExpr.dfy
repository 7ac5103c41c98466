/**
  License expressions: the tokenizer, the recursive-descent parser that computes the alternatives of an
  expression as sets of license identifiers, and the check that a selected license is a declared one.
  The syntax trees follow Annex D of SPDX 2.3: WITH binds tightest, then AND, then OR (or `/`).
 */
module LicenseExpr {
  import opened Wrappers

  type Token = string
  type Choice = set<string>
  type Choices = set<Choice>

  // ----- Tokens

  predicate IsAlnum(c: char) {
    '0' <= c <= '9' || 'A' <= c <= 'Z' || 'a' <= c <= 'z'
  }

  predicate IsNameChar(c: char) {
    IsAlnum(c) || c == '.' || c == '+' || c == '-'
  }

  predicate IsMark(c: char) {
    c == '(' || c == ')' || c == '/'
  }

  /** The characters a `\s` of Python's `re` matches. */
  predicate IsSpace(c: char) {
    || '\t' <= c <= '\r' || '\U{1c}' <= c <= ' ' || c == '\U{85}' || c == '\U{a0}' || c == '\U{1680}'
    || '\U{2000}' <= c <= '\U{200a}' || c == '\U{2028}' || c == '\U{2029}' || c == '\U{202f}'
    || c == '\U{205f}' || c == '\U{3000}'
  }

  /** How many characters from the front belong to a name. */
  function NameLength(s: string): (n: nat)
    ensures n <= |s|
    ensures forall i :: 0 <= i < n ==> IsNameChar(s[i])
    ensures n < |s| ==> !IsNameChar(s[n])
  {
    if s == [] || !IsNameChar(s[0]) then 0 else 1 + NameLength(s[1..])
  }

  function Tokens(s: string): seq<Token> {
    if s == [] then []
    else if IsAlnum(s[0]) then
      var n := 1 + NameLength(s[1..]);
      [s[..n]] + Tokens(s[n..])
    else if IsMark(s[0]) then [[s[0]]] + Tokens(s[1..])
    else Tokens(s[1..])
  }

  function WithoutSpace(s: string): string {
    if s == [] then []
    else if IsSpace(s[0]) then WithoutSpace(s[1..])
    else [s[0]] + WithoutSpace(s[1..])
  }

  function Concat(ts: seq<Token>): string {
    if ts == [] then [] else ts[0] + Concat(ts[1..])
  }

  predicate Reserved(t: Token) {
    t == "AND" || t == "OR" || t == "WITH" || t == "(" || t == ")" || t == "/"
  }

  /** A name, an operator word or a mark: what the tokenizer yields. */
  predicate IsToken(t: Token) {
    && t != []
    && ((|t| == 1 && IsMark(t[0])) || (IsAlnum(t[0]) && forall i :: 0 <= i < |t| ==> IsNameChar(t[i])))
  }

  // ----- Syntax trees

  datatype Term = Plain(name: Token) | With(name: Token, exception: Token) | Paren(inner: Alternatives)

  datatype Conjunction = OneTerm(term: Term) | And(left: Conjunction, right: Term)

  datatype Alternatives = OneConjunction(conjunction: Conjunction)
                        | Or(left: Alternatives, slash: bool, right: Conjunction)

  function PrintTerm(t: Term): seq<Token> {
    match t
    case Plain(name) => [name]
    case With(name, exception) => [name, "WITH", exception]
    case Paren(inner) => ["("] + PrintAlternatives(inner) + [")"]
  }

  function PrintConjunction(c: Conjunction): seq<Token> {
    match c
    case OneTerm(t) => PrintTerm(t)
    case And(left, right) => PrintConjunction(left) + ["AND"] + PrintTerm(right)
  }

  function PrintAlternatives(a: Alternatives): seq<Token> {
    match a
    case OneConjunction(c) => PrintConjunction(c)
    case Or(left, slash, right) =>
      PrintAlternatives(left) + [if slash then "/" else "OR"] + PrintConjunction(right)
  }

  /** Every leaf of the tree is a name. */
  predicate TermOk(t: Term) {
    match t
    case Plain(name) => !Reserved(name)
    case With(name, exception) => !Reserved(name) && !Reserved(exception)
    case Paren(inner) => AlternativesOk(inner)
  }

  predicate ConjunctionOk(c: Conjunction) {
    match c
    case OneTerm(t) => TermOk(t)
    case And(left, right) => ConjunctionOk(left) && TermOk(right)
  }

  predicate AlternativesOk(a: Alternatives) {
    match a
    case OneConjunction(c) => ConjunctionOk(c)
    case Or(left, _, right) => AlternativesOk(left) && ConjunctionOk(right)
  }

  // ----- The parser as a function from tokens to a tree and the tokens left

  datatype Parsed<T> = Fail | Got(tree: T, rest: seq<Token>)

  predicate At(ts: seq<Token>, t: Token) {
    ts != [] && ts[0] == t
  }

  predicate AtName(ts: seq<Token>) {
    ts != [] && !Reserved(ts[0])
  }

  function ParseTerm(ts: seq<Token>): (p: Parsed<Term>)
    ensures p.Got? ==> |p.rest| < |ts|
    decreases |ts|, 0
  {
    if At(ts, "(") then
      match ParseAlternatives(ts[1..])
      case Fail => Fail
      case Got(inner, rest) => if At(rest, ")") then Got(Paren(inner), rest[1..]) else Fail
    else if !AtName(ts) then Fail
    else if At(ts[1..], "WITH") then
      if AtName(ts[2..]) then Got(With(ts[0], ts[2]), ts[3..]) else Fail
    else Got(Plain(ts[0]), ts[1..])
  }

  function ParseConjunction(ts: seq<Token>): (p: Parsed<Conjunction>)
    ensures p.Got? ==> |p.rest| < |ts|
    decreases |ts|, 1
  {
    match ParseTerm(ts)
    case Fail => Fail
    case Got(t, rest) => MoreConjunction(OneTerm(t), rest)
  }

  function MoreConjunction(left: Conjunction, ts: seq<Token>): (p: Parsed<Conjunction>)
    ensures p.Got? ==> |p.rest| <= |ts|
    decreases |ts|, 1
  {
    if At(ts, "AND") then
      match ParseTerm(ts[1..])
      case Fail => Fail
      case Got(t, rest) => MoreConjunction(And(left, t), rest)
    else Got(left, ts)
  }

  function ParseAlternatives(ts: seq<Token>): (p: Parsed<Alternatives>)
    ensures p.Got? ==> |p.rest| < |ts|
    decreases |ts|, 2
  {
    match ParseConjunction(ts)
    case Fail => Fail
    case Got(c, rest) => MoreAlternatives(OneConjunction(c), rest)
  }

  function MoreAlternatives(left: Alternatives, ts: seq<Token>): (p: Parsed<Alternatives>)
    ensures p.Got? ==> |p.rest| <= |ts|
    decreases |ts|, 2
  {
    if At(ts, "OR") || At(ts, "/") then
      match ParseConjunction(ts[1..])
      case Fail => Fail
      case Got(c, rest) => MoreAlternatives(Or(left, At(ts, "/"), c), rest)
    else Got(left, ts)
  }

  /** The tree of a whole token list; all tokens must be consumed. */
  function Parse(ts: seq<Token>): Option<Alternatives> {
    var p := ParseAlternatives(ts);
    if p.Got? && p.rest == [] then Some(p.tree) else None
  }

  // ----- The alternatives of a tree, and its Boolean meaning

  function LowerChar(c: char): char {
    if 'A' <= c <= 'Z' then c - 'A' + 'a' else c
  }

  function Lower(s: string): string {
    seq(|s|, i requires 0 <= i < |s| => LowerChar(s[i]))
  }

  /** The identifier a leaf stands for. */
  function Atom(t: Term): string
    requires !t.Paren?
  {
    match t
    case Plain(name) => Lower(name)
    case With(name, exception) => Lower(name) + " WITH " + Lower(exception)
  }

  function Product(left: Choices, right: Choices): Choices {
    set l, r | l in left && r in right :: l + r
  }

  function TermChoices(t: Term): Choices {
    if t.Paren? then AlternativesChoices(t.inner) else {{Atom(t)}}
  }

  function ConjunctionChoices(c: Conjunction): Choices {
    match c
    case OneTerm(t) => TermChoices(t)
    case And(left, right) => Product(ConjunctionChoices(left), TermChoices(right))
  }

  function AlternativesChoices(a: Alternatives): Choices {
    match a
    case OneConjunction(c) => ConjunctionChoices(c)
    case Or(left, _, right) => AlternativesChoices(left) + ConjunctionChoices(right)
  }

  /** Whether the expression is true when exactly the identifiers in `granted` are. */
  predicate TermHolds(t: Term, granted: set<string>) {
    if t.Paren? then AlternativesHold(t.inner, granted) else Atom(t) in granted
  }

  predicate ConjunctionHolds(c: Conjunction, granted: set<string>) {
    match c
    case OneTerm(t) => TermHolds(t, granted)
    case And(left, right) => ConjunctionHolds(left, granted) && TermHolds(right, granted)
  }

  predicate AlternativesHold(a: Alternatives, granted: set<string>) {
    match a
    case OneConjunction(c) => ConjunctionHolds(c, granted)
    case Or(left, _, right) => AlternativesHold(left, granted) || ConjunctionHolds(right, granted)
  }

  /** Some choice is granted in full. */
  predicate Satisfied(choices: Choices, granted: set<string>) {
    exists choice :: choice in choices && choice <= granted
  }

  lemma ProductMeaning(left: Choices, right: Choices, granted: set<string>)
    ensures Satisfied(Product(left, right), granted) <==> Satisfied(left, granted) && Satisfied(right, granted)
  {
    if Satisfied(left, granted) && Satisfied(right, granted) {
      var l :| l in left && l <= granted;
      var r :| r in right && r <= granted;
      assert l + r in Product(left, right);
    }
    if Satisfied(Product(left, right), granted) {
      var c :| c in Product(left, right) && c <= granted;
      var l, r :| l in left && r in right && l + r == c;
      assert l <= granted && r <= granted;
    }
  }

  lemma {:induction false} TermMeaning(t: Term, granted: set<string>)
    ensures Satisfied(TermChoices(t), granted) <==> TermHolds(t, granted)
  {
    if t.Paren? {
      ChoicesMeaning(t.inner, granted);
    } else {
      assert {Atom(t)} in TermChoices(t);
    }
  }

  lemma {:induction false} ConjunctionMeaning(c: Conjunction, granted: set<string>)
    ensures Satisfied(ConjunctionChoices(c), granted) <==> ConjunctionHolds(c, granted)
  {
    match c {
      case OneTerm(t) => TermMeaning(t, granted);
      case And(left, right) =>
        ConjunctionMeaning(left, granted);
        TermMeaning(right, granted);
        ProductMeaning(ConjunctionChoices(left), TermChoices(right), granted);
    }
  }

  /** License semantics: some computed choice is granted in full iff the expression is true. */
  lemma {:induction false} ChoicesMeaning(a: Alternatives, granted: set<string>)
    ensures Satisfied(AlternativesChoices(a), granted) <==> AlternativesHold(a, granted)
  {
    match a {
      case OneConjunction(c) => ConjunctionMeaning(c, granted);
      case Or(left, _, right) =>
        ChoicesMeaning(left, granted);
        ConjunctionMeaning(right, granted);
    }
  }

  // ----- Parsing is the inverse of printing

  lemma Regroup(a: seq<Token>, x: Token, b: seq<Token>, c: seq<Token>)
    ensures (a + [x] + b) + c == a + ([x] + (b + c))
  {
  }

  lemma {:induction false} ParsedTermPrints(ts: seq<Token>)
    requires ParseTerm(ts).Got?
    ensures TermOk(ParseTerm(ts).tree) && PrintTerm(ParseTerm(ts).tree) + ParseTerm(ts).rest == ts
    decreases |ts|, 0
  {
    if At(ts, "(") {
      ParsedAlternativesPrint(ts[1..]);
      var p := ParseAlternatives(ts[1..]);
      assert p.rest == [")"] + p.rest[1..];
    }
  }

  lemma {:induction false} ParsedConjunctionPrints(ts: seq<Token>)
    requires ParseConjunction(ts).Got?
    ensures ConjunctionOk(ParseConjunction(ts).tree)
    ensures PrintConjunction(ParseConjunction(ts).tree) + ParseConjunction(ts).rest == ts
    decreases |ts|, 1
  {
    ParsedTermPrints(ts);
    MoreConjunctionPrints(OneTerm(ParseTerm(ts).tree), ParseTerm(ts).rest);
  }

  lemma {:induction false} MoreConjunctionPrints(left: Conjunction, ts: seq<Token>)
    requires ConjunctionOk(left) && MoreConjunction(left, ts).Got?
    ensures ConjunctionOk(MoreConjunction(left, ts).tree)
    ensures PrintConjunction(MoreConjunction(left, ts).tree) + MoreConjunction(left, ts).rest
            == PrintConjunction(left) + ts
    decreases |ts|, 1
  {
    if At(ts, "AND") {
      ParsedTermPrints(ts[1..]);
      var p := ParseTerm(ts[1..]);
      MoreConjunctionPrints(And(left, p.tree), p.rest);
      Regroup(PrintConjunction(left), "AND", PrintTerm(p.tree), p.rest);
      assert ts == ["AND"] + ts[1..];
    }
  }

  lemma {:induction false} ParsedAlternativesPrint(ts: seq<Token>)
    requires ParseAlternatives(ts).Got?
    ensures AlternativesOk(ParseAlternatives(ts).tree)
    ensures PrintAlternatives(ParseAlternatives(ts).tree) + ParseAlternatives(ts).rest == ts
    decreases |ts|, 2
  {
    ParsedConjunctionPrints(ts);
    MoreAlternativesPrint(OneConjunction(ParseConjunction(ts).tree), ParseConjunction(ts).rest);
  }

  lemma {:induction false} MoreAlternativesPrint(left: Alternatives, ts: seq<Token>)
    requires AlternativesOk(left) && MoreAlternatives(left, ts).Got?
    ensures AlternativesOk(MoreAlternatives(left, ts).tree)
    ensures PrintAlternatives(MoreAlternatives(left, ts).tree) + MoreAlternatives(left, ts).rest
            == PrintAlternatives(left) + ts
    decreases |ts|, 2
  {
    if At(ts, "OR") || At(ts, "/") {
      ParsedConjunctionPrints(ts[1..]);
      var p := ParseConjunction(ts[1..]);
      MoreAlternativesPrint(Or(left, At(ts, "/"), p.tree), p.rest);
      Regroup(PrintAlternatives(left), ts[0], PrintConjunction(p.tree), p.rest);
      assert ts == [ts[0]] + ts[1..];
    }
  }

  lemma Enclosed(ts: seq<Token>, rest: seq<Token>)
    ensures ((["("] + ts + [")"]) + rest)[1..] == ts + ([")"] + rest)
  {
  }

  lemma {:induction false} PrintedTermParses(t: Term, rest: seq<Token>)
    requires TermOk(t) && !At(rest, "WITH")
    ensures ParseTerm(PrintTerm(t) + rest) == Got(t, rest)
  {
    match t {
      case Plain(name) => assert ([name] + rest)[1..] == rest;
      case With(name, exception) =>
        var ts := [name, "WITH", exception] + rest;
        assert ts[1..] == ["WITH", exception] + rest && ts[2..] == [exception] + rest && ts[3..] == rest;
      case Paren(inner) =>
        var ts := PrintTerm(t) + rest;
        Enclosed(PrintAlternatives(inner), rest);
        PrintedAlternativesParse(inner, [")"] + rest);
        assert ([")"] + rest)[1..] == rest;
    }
  }

  lemma {:induction false} PrintedConjunctionParses(c: Conjunction, rest: seq<Token>)
    requires ConjunctionOk(c) && !At(rest, "WITH")
    ensures ParseConjunction(PrintConjunction(c) + rest) == MoreConjunction(c, rest)
  {
    match c {
      case OneTerm(t) => PrintedTermParses(t, rest);
      case And(left, right) =>
        var after := ["AND"] + (PrintTerm(right) + rest);
        Regroup(PrintConjunction(left), "AND", PrintTerm(right), rest);
        PrintedConjunctionParses(left, after);
        assert after[1..] == PrintTerm(right) + rest;
        PrintedTermParses(right, rest);
    }
  }

  lemma {:induction false} PrintedAlternativesParse(a: Alternatives, rest: seq<Token>)
    requires AlternativesOk(a) && !At(rest, "WITH") && !At(rest, "AND")
    ensures ParseAlternatives(PrintAlternatives(a) + rest) == MoreAlternatives(a, rest)
  {
    match a {
      case OneConjunction(c) => PrintedConjunctionParses(c, rest);
      case Or(left, slash, right) =>
        var after := [if slash then "/" else "OR"] + (PrintConjunction(right) + rest);
        Regroup(PrintAlternatives(left), if slash then "/" else "OR", PrintConjunction(right), rest);
        PrintedAlternativesParse(left, after);
        assert after[1..] == PrintConjunction(right) + rest;
        PrintedConjunctionParses(right, rest);
    }
  }

  /** The parser accepts exactly the printed trees, and gives back the tree that was printed. */
  lemma ParseInvertsPrint(ts: seq<Token>, a: Alternatives)
    ensures Parse(ts) == Some(a) <==> AlternativesOk(a) && PrintAlternatives(a) == ts
  {
    if Parse(ts) == Some(a) {
      ParsedAlternativesPrint(ts);
      assert PrintAlternatives(a) + [] == PrintAlternatives(a);
    }
    if AlternativesOk(a) && PrintAlternatives(a) == ts {
      PrintedAlternativesParse(a, []);
      assert ts + [] == ts;
    }
  }

  // ----- The parser as the source runs it: nested functions advancing a shared position

  class Parser {
    const tokens: seq<Token>
    var position: nat

    constructor (tokens: seq<Token>)
      ensures this.tokens == tokens && position == 0
    {
      this.tokens, position := tokens, 0;
    }

    ghost predicate Valid()
      reads this
    {
      position <= |tokens|
    }

    /** The tokens not consumed yet. */
    ghost function Left(): seq<Token>
      reads this
      requires Valid()
    {
      tokens[position..]
    }

    method Take(token: Token) returns (taken: bool)
      requires Valid()
      modifies this
      ensures Valid() && taken == At(old(Left()), token)
      ensures Left() == if taken then old(Left())[1..] else old(Left())
      ensures taken ==> old(position) < position
      ensures !taken ==> position == old(position)
    {
      taken := position < |tokens| && tokens[position] == token;
      if taken {
        position := position + 1;
      }
    }

    method Identifier() returns (value: Option<string>)
      requires Valid()
      modifies this
      ensures Valid() && value.Some? == AtName(old(Left()))
      ensures value.Some? ==>
                value.value == Lower(old(Left())[0]) && Left() == old(Left())[1..] && old(position) < position
    {
      if position == |tokens| || Reserved(tokens[position]) {
        return None;
      }
      value := Some(Lower(tokens[position]));
      position := position + 1;
    }

    method ReadTerm() returns (choices: Option<Choices>)
      requires Valid()
      modifies this
      ensures Valid()
      ensures choices.Some? == ParseTerm(old(Left())).Got?
      ensures choices.Some? ==>
                && choices.value == TermChoices(ParseTerm(old(Left())).tree)
                && Left() == ParseTerm(old(Left())).rest && old(position) < position
      decreases |tokens| - position, 0
    {
      var parenthesis := Take("(");
      if parenthesis {
        choices := ReadAlternatives();
        if choices.None? {
          return;
        }
        var closed := Take(")");
        if !closed {
          choices := None;
        }
        return;
      }
      var value := Identifier();
      if value.None? {
        return None;
      }
      var with := Take("WITH");
      if with {
        var exception := Identifier();
        if exception.None? {
          return None;
        }
        value := Some(value.value + " WITH " + exception.value);
      }
      return Some({{value.value}});
    }

    method ReadConjunction() returns (choices: Option<Choices>)
      requires Valid()
      modifies this
      ensures Valid()
      ensures choices.Some? == ParseConjunction(old(Left())).Got?
      ensures choices.Some? ==>
                && choices.value == ConjunctionChoices(ParseConjunction(old(Left())).tree)
                && Left() == ParseConjunction(old(Left())).rest && old(position) < position
      decreases |tokens| - position, 1
    {
      choices := ReadTerm();
      if choices.None? {
        return;
      }
      ghost var tree := OneTerm(ParseTerm(old(Left())).tree);
      var more := true;
      while more
        invariant Valid() && old(position) < position
        invariant choices == Some(ConjunctionChoices(tree))
        invariant ParseConjunction(old(Left())) == if more then MoreConjunction(tree, Left()) else Got(tree, Left())
        decreases |tokens| - position, more
      {
        ghost var before := Left();
        more := Take("AND");
        if more {
          var following := ReadTerm();
          if following.None? {
            return None;
          }
          tree := And(tree, ParseTerm(before[1..]).tree);
          choices := Some(set l, r | l in choices.value && r in following.value :: l + r);
        }
      }
    }

    method ReadAlternatives() returns (choices: Option<Choices>)
      requires Valid()
      modifies this
      ensures Valid()
      ensures choices.Some? == ParseAlternatives(old(Left())).Got?
      ensures choices.Some? ==>
                && choices.value == AlternativesChoices(ParseAlternatives(old(Left())).tree)
                && Left() == ParseAlternatives(old(Left())).rest && old(position) < position
      decreases |tokens| - position, 2
    {
      choices := ReadConjunction();
      if choices.None? {
        return;
      }
      ghost var tree := OneConjunction(ParseConjunction(old(Left())).tree);
      var more := true;
      while more
        invariant Valid() && old(position) < position
        invariant choices == Some(AlternativesChoices(tree))
        invariant ParseAlternatives(old(Left())) == if more then MoreAlternatives(tree, Left()) else Got(tree, Left())
        decreases |tokens| - position, more
      {
        ghost var before := Left();
        more := Take("OR");
        if !more {
          more := Take("/");
        }
        if more {
          var following := ReadConjunction();
          if following.None? {
            return None;
          }
          tree := Or(tree, At(before, "/"), ParseConjunction(before[1..]).tree);
          choices := Some(choices.value + following.value);
        }
      }
    }
  }

  /** The alternatives of an expression, or nothing if it is invalid. */
  function ChoicesOf(expression: string): Option<Choices> {
    var ts := Tokens(expression);
    if Concat(ts) != WithoutSpace(expression) then None
    else
      match Parse(ts)
      case None => None
      case Some(a) => Some(AlternativesChoices(a))
  }

  method LicenseChoices(expression: string) returns (choices: Option<Choices>)
    ensures choices == ChoicesOf(expression)
  {
    var ts := Tokens(expression);
    if Concat(ts) != WithoutSpace(expression) {
      return None;
    }
    var parser := new Parser(ts);
    assert ts[0..] == ts;
    choices := parser.ReadAlternatives();
    if choices.Some? && parser.position != |ts| {
      choices := None;
    }
  }

  // ----- From text to tokens and back

  function Join(ts: seq<Token>): string {
    if ts == [] then [] else if |ts| == 1 then ts[0] else ts[0] + " " + Join(ts[1..])
  }

  lemma {:induction false} NameEnds(s: string, rest: string)
    requires forall i :: 0 <= i < |s| ==> IsNameChar(s[i])
    requires rest == [] || !IsNameChar(rest[0])
    ensures NameLength(s + rest) == |s|
  {
    if s == [] {
      assert s + rest == rest;
    } else {
      NameEnds(s[1..], rest);
      assert (s + rest)[1..] == s[1..] + rest;
    }
  }

  lemma TokenFirst(t: Token, rest: string)
    requires IsToken(t) && (rest == [] || rest[0] == ' ')
    ensures Tokens(t + rest) == [t] + Tokens(rest)
  {
    var s := t + rest;
    if IsAlnum(t[0]) {
      NameEnds(t[1..], rest);
      assert s[1..] == t[1..] + rest;
      assert s[..|t|] == t && s[|t|..] == rest;
    } else {
      assert s[1..] == rest && [s[0]] == t;
    }
  }

  lemma {:induction false} WithoutSpaceConcat(t: string, rest: string)
    requires forall i :: 0 <= i < |t| ==> !IsSpace(t[i])
    ensures WithoutSpace(t + rest) == t + WithoutSpace(rest)
  {
    if t == [] {
      assert t + rest == rest;
    } else {
      WithoutSpaceConcat(t[1..], rest);
      assert (t + rest)[1..] == t[1..] + rest;
    }
  }

  lemma SpaceFirst(s: string)
    ensures Tokens(" " + s) == Tokens(s) && WithoutSpace(" " + s) == WithoutSpace(s)
  {
    assert (" " + s)[1..] == s;
  }

  lemma TokenHasNoSpace(t: Token)
    requires IsToken(t)
    ensures forall i :: 0 <= i < |t| ==> !IsSpace(t[i])
  {
  }

  lemma {:induction false} JoinTokens(ts: seq<Token>)
    requires forall i :: 0 <= i < |ts| ==> IsToken(ts[i])
    ensures Tokens(Join(ts)) == ts && WithoutSpace(Join(ts)) == Concat(ts)
  {
    if ts != [] {
      var first, others := ts[0], ts[1..];
      var rest := if |ts| == 1 then "" else " " + Join(others);
      assert Join(ts) == first + rest;
      TokenFirst(first, rest);
      TokenHasNoSpace(first);
      WithoutSpaceConcat(first, rest);
      JoinTokens(others);
      SpaceFirst(Join(others));
      assert ts == [first] + others;
    }
  }

  /** Printing any tree over proper names and reading it back gives the tree's alternatives. */
  lemma PrintedExpressionReadsBack(a: Alternatives)
    requires AlternativesOk(a)
    requires forall i :: 0 <= i < |PrintAlternatives(a)| ==> IsToken(PrintAlternatives(a)[i])
    ensures ChoicesOf(Join(PrintAlternatives(a))) == Some(AlternativesChoices(a))
  {
    JoinTokens(PrintAlternatives(a));
    ParseInvertsPrint(PrintAlternatives(a), a);
  }

  /** What an accepted expression means: all its text is one tree, and its choices are that tree's. */
  lemma AcceptedExpressionMeaning(expression: string, granted: set<string>)
    requires ChoicesOf(expression).Some?
    ensures exists a ::
              && AlternativesOk(a)
              && Tokens(expression) == PrintAlternatives(a)
              && WithoutSpace(expression) == Concat(PrintAlternatives(a))
              && (Satisfied(ChoicesOf(expression).value, granted) <==> AlternativesHold(a, granted))
  {
    var a := Parse(Tokens(expression)).value;
    ParseInvertsPrint(Tokens(expression), a);
    ChoicesMeaning(a, granted);
  }

  // ----- What a leaf names

  /** Equal but for the case of ASCII letters. */
  predicate SameLetter(c: char, d: char) {
    || c == d
    || ('A' <= c <= 'Z' && d as int == c as int + 32)
    || ('A' <= d <= 'Z' && c as int == d as int + 32)
  }

  predicate SameName(s: string, t: string) {
    |s| == |t| && forall i :: 0 <= i < |s| ==> SameLetter(s[i], t[i])
  }

  /** The same license, with the same exception or both without one. */
  predicate SameLeaf(t: Term, u: Term) {
    match (t, u)
    case (Plain(n), Plain(m)) => SameName(n, m)
    case (With(n, e), With(m, f)) => SameName(n, m) && SameName(e, f)
    case _ => false
  }

  predicate LeafOk(t: Term) {
    match t
    case Plain(n) => IsToken(n)
    case With(n, e) => IsToken(n) && IsToken(e)
    case Paren(_) => false
  }

  lemma LowerIsSameName(n: Token, m: Token)
    requires IsToken(n) && IsToken(m)
    ensures Lower(n) == Lower(m) <==> SameName(n, m)
    ensures forall i :: 0 <= i < |n| ==> Lower(n)[i] != ' '
  {
    if Lower(n) == Lower(m) {
      forall i | 0 <= i < |n| ensures SameLetter(n[i], m[i]) {
        assert Lower(n)[i] == Lower(m)[i];
      }
    }
  }

  /** Texts without blanks, each followed by a blank, can be told apart. */
  lemma BlankSeparates(n: string, rest: string, m: string, rest': string)
    requires (forall i :: 0 <= i < |n| ==> n[i] != ' ') && (forall i :: 0 <= i < |m| ==> m[i] != ' ')
    requires n + " " + rest == m + " " + rest'
    ensures n == m && rest == rest'
  {
    var s := n + " " + rest;
    assert s[|n|] == ' ' && s[|m|] == ' ';
    assert forall i :: 0 <= i < |n| ==> s[i] == n[i];
    assert forall i :: 0 <= i < |m| ==> s[i] == m[i];
    assert s[..|n|] == n && s[..|m|] == m;
    assert s[|n| + 1..] == rest && s[|m| + 1..] == rest';
  }

  lemma AtomIff(t: Term, u: Term)
    requires LeafOk(t) && LeafOk(u)
    ensures Atom(t) == Atom(u) <==> SameLeaf(t, u)
  {
    LowerIsSameName(t.name, u.name);
    LowerIsSameName(u.name, t.name);
    var n, m := Lower(t.name), Lower(u.name);
    if t.With? {
      assert Atom(t) == n + " " + ("WITH " + Lower(t.exception));
      assert Atom(t)[|n|] == ' ';
    }
    if u.With? {
      assert Atom(u) == m + " " + ("WITH " + Lower(u.exception));
      assert Atom(u)[|m|] == ' ';
    }
    if t.With? && u.With? {
      LowerIsSameName(t.exception, u.exception);
      if Atom(t) == Atom(u) {
        BlankSeparates(n, "WITH " + Lower(t.exception), m, "WITH " + Lower(u.exception));
        assert ("WITH " + Lower(t.exception))[5..] == Lower(t.exception);
        assert ("WITH " + Lower(u.exception))[5..] == Lower(u.exception);
      }
    }
  }

  /** The tree of one leaf. */
  function Leaf(t: Term): Alternatives {
    OneConjunction(OneTerm(t))
  }

  lemma LeafMeans(t: Term, granted: set<string>)
    requires !t.Paren?
    ensures AlternativesHold(Leaf(t), granted) <==> Atom(t) in granted
    ensures AlternativesChoices(Leaf(t)) == {{Atom(t)}} && PrintAlternatives(Leaf(t)) == PrintTerm(t)
  {
    assert ConjunctionHolds(OneTerm(t), granted) == TermHolds(t, granted);
    assert ConjunctionChoices(OneTerm(t)) == TermChoices(t);
    assert PrintConjunction(OneTerm(t)) == PrintTerm(t);
  }

  /** One leaf entails another exactly when they name the same license with the same exception, up to case. */
  lemma LeafEntailsIff(t: Term, u: Term)
    requires LeafOk(t) && LeafOk(u)
    ensures Entails(Leaf(t), Leaf(u)) <==> SameLeaf(t, u)
    ensures AlternativesChoices(Leaf(t)) <= AlternativesChoices(Leaf(u)) <==> SameLeaf(t, u)
  {
    AtomIff(t, u);
    forall granted ensures AlternativesHold(Leaf(t), granted) <==> Atom(t) in granted {
      LeafMeans(t, granted);
    }
    forall granted ensures AlternativesHold(Leaf(u), granted) <==> Atom(u) in granted {
      LeafMeans(u, granted);
    }
    LeafMeans(t, {});
    LeafMeans(u, {});
    assert {Atom(t)} in AlternativesChoices(Leaf(t));
    assert Atom(t) in {Atom(t)} && (Atom(u) in {Atom(t)} <==> Atom(u) == Atom(t));
    assert AlternativesHold(Leaf(t), {Atom(t)});
  }

  /** An exception is neither dropped nor added: with and without it, neither license is accepted for the other. */
  lemma ExceptionMatters(name: Token, exception: Token)
    requires IsToken(name) && IsToken(exception) && !Reserved(name) && !Reserved(exception)
    ensures var plain, with := ChoicesOf(name), ChoicesOf(name + " WITH " + exception);
            plain.Some? && with.Some? && !(plain.value <= with.value) && !(with.value <= plain.value)
  {
    var p, w := Plain(name), With(name, exception);
    LeafMeans(p, {});
    LeafMeans(w, {});
    assert PrintAlternatives(Leaf(p)) == [name] && PrintAlternatives(Leaf(w)) == [name, "WITH", exception];
    assert IsToken("WITH");
    PrintedExpressionReadsBack(Leaf(p));
    PrintedExpressionReadsBack(Leaf(w));
    JoinThree(name, exception);
    LeafEntailsIff(p, w);
    LeafEntailsIff(w, p);
  }

  lemma JoinThree(name: Token, exception: Token)
    ensures Join([name]) == name && Join([name, "WITH", exception]) == name + " WITH " + exception
  {
    var ts := [name, "WITH", exception];
    assert ts[1..] == ["WITH", exception] && ts[1..][1..] == [exception];
    assert Join(ts[1..]) == "WITH" + " " + exception;
    assert name + " " + ("WITH" + " " + exception) == name + " WITH " + exception;
  }

  lemma PlainMeans(n: Token)
    requires !Reserved(n)
    ensures var c := OneTerm(Plain(n));
            && ConjunctionOk(c) && ConjunctionChoices(c) == {{Lower(n)}} && PrintConjunction(c) == [n]
            && AlternativesOk(Leaf(Plain(n))) && AlternativesChoices(Leaf(Plain(n))) == {{Lower(n)}}
            && PrintAlternatives(Leaf(Plain(n))) == [n]
            && TermOk(Plain(n)) && TermChoices(Plain(n)) == {{Lower(n)}} && PrintTerm(Plain(n)) == [n]
  {
    var c := OneTerm(Plain(n));
    assert TermOk(Plain(n)) && TermChoices(Plain(n)) == {{Lower(n)}} && PrintTerm(Plain(n)) == [n];
    assert ConjunctionOk(c) && ConjunctionChoices(c) == {{Lower(n)}} && PrintConjunction(c) == [n];
  }

  lemma EitherName(n: Token, m: Token, slash: bool)
    requires IsToken(n) && IsToken(m) && !Reserved(n) && !Reserved(m)
    ensures ChoicesOf(n + " " + (if slash then "/" else "OR") + " " + m) == Some({{Lower(n)}, {Lower(m)}})
  {
    PlainMeans(n);
    PlainMeans(m);
    var a := Or(Leaf(Plain(n)), slash, OneTerm(Plain(m)));
    assert PrintAlternatives(a) == [n] + [if slash then "/" else "OR"] + [m] == [n, if slash then "/" else "OR", m];
    TwoRead(n, if slash then "/" else "OR", m, a);
    assert {{Lower(n)}} + {{Lower(m)}} == {{Lower(n)}, {Lower(m)}};
  }

  lemma BothNames(n: Token, m: Token)
    requires IsToken(n) && IsToken(m) && !Reserved(n) && !Reserved(m)
    ensures ChoicesOf(n + " AND " + m) == Some({{Lower(n), Lower(m)}})
  {
    PlainMeans(n);
    PlainMeans(m);
    var c := And(OneTerm(Plain(n)), Plain(m));
    assert ConjunctionOk(c) && PrintConjunction(c) == [n] + ["AND"] + [m] == [n, "AND", m];
    assert PrintAlternatives(OneConjunction(c)) == [n, "AND", m];
    TwoRead(n, "AND", m, OneConjunction(c));
    assert n + " " + "AND" + " " + m == n + " AND " + m;
    assert {Lower(n)} + {Lower(m)} == {Lower(n), Lower(m)};
    assert ConjunctionChoices(c) == Product({{Lower(n)}}, {{Lower(m)}}) == {{Lower(n), Lower(m)}};
  }

  /** Two names with a slash or OR between them are two alternatives, with AND one. */
  lemma TwoNames(n: Token, m: Token)
    requires IsToken(n) && IsToken(m) && !Reserved(n) && !Reserved(m)
    ensures ChoicesOf(n + " / " + m) == Some({{Lower(n)}, {Lower(m)}})
    ensures ChoicesOf(n + " OR " + m) == Some({{Lower(n)}, {Lower(m)}})
    ensures ChoicesOf(n + " AND " + m) == Some({{Lower(n), Lower(m)}})
  {
    EitherName(n, m, true);
    EitherName(n, m, false);
    BothNames(n, m);
    assert n + " " + "/" + " " + m == n + " / " + m && n + " " + "OR" + " " + m == n + " OR " + m;
  }

  lemma TwoRead(n: Token, operator: Token, m: Token, a: Alternatives)
    requires IsToken(n) && IsToken(operator) && IsToken(m)
    requires AlternativesOk(a) && PrintAlternatives(a) == [n, operator, m]
    ensures ChoicesOf(n + " " + operator + " " + m) == Some(AlternativesChoices(a))
  {
    PrintedExpressionReadsBack(a);
    var ts := [n, operator, m];
    assert ts[1..] == [operator, m] && ts[1..][1..] == [m];
    assert Join(ts[1..]) == operator + " " + m;
    assert Join(ts) == n + " " + (operator + " " + m) == n + " " + operator + " " + m;
  }

  /** Real names are names, with dots, dashes and a trailing plus. */
  lemma RealNames()
    ensures IsToken("GPL-2.0+") && !Reserved("GPL-2.0+")
    ensures IsToken("Apache-2.0") && !Reserved("Apache-2.0")
    ensures IsToken("LLVM-exception") && !Reserved("LLVM-exception")
  {
  }

  /** No operator and no mark is a license. */
  lemma OperatorsAreNoNames(t: Token)
    requires t == "AND" || t == "OR" || t == "WITH" || t == "(" || t == ")" || t == "/"
    ensures Parse([t]) == None
  {
    assert ParseTerm([]).Fail? && ParseConjunction([]).Fail? && ParseAlternatives([]).Fail?;
    assert [t][1..] == [];
    assert ParseTerm([t]).Fail?;
    assert ParseConjunction([t]).Fail?;
  }

  // ----- Selected licenses

  /** Every identifier set that satisfies the selected expression satisfies the declared one. */
  ghost predicate Entails(selected: Alternatives, declared: Alternatives) {
    forall granted: set<string> :: AlternativesHold(selected, granted) ==> AlternativesHold(declared, granted)
  }

  /** Each selected alternative contains a declared one. */
  predicate Covers(declared: Choices, selected: Choices) {
    forall s :: s in selected ==> Satisfied(declared, s)
  }

  /** Entailment, exactly. */
  lemma EntailsIffCovered(selected: Alternatives, declared: Alternatives)
    ensures Entails(selected, declared) <==> Covers(AlternativesChoices(declared), AlternativesChoices(selected))
  {
    var ss, ds := AlternativesChoices(selected), AlternativesChoices(declared);
    if Entails(selected, declared) {
      forall s | s in ss ensures Satisfied(ds, s) {
        ChoicesMeaning(selected, s);
        ChoicesMeaning(declared, s);
        assert Satisfied(ss, s);
      }
      assert Covers(ds, ss);
    } else {
      var granted: set<string> :| AlternativesHold(selected, granted) && !AlternativesHold(declared, granted);
      ChoicesMeaning(selected, granted);
      ChoicesMeaning(declared, granted);
      var s :| s in ss && s <= granted;
      assert !Satisfied(ds, s);
    }
  }

  /** The check is sound: an accepted selection entails the declaration. */
  lemma SelectionIsSound(selected: Alternatives, declared: Alternatives)
    requires AlternativesChoices(selected) <= AlternativesChoices(declared)
    ensures Entails(selected, declared)
  {
    EntailsIffCovered(selected, declared);
    forall s | s in AlternativesChoices(selected) ensures Satisfied(AlternativesChoices(declared), s) {
      assert s in AlternativesChoices(declared) && s <= s;
    }
  }

  /** It is stricter than entailment: taking on more than was declared is refused. */
  lemma SelectionIsStricter()
    ensures exists selected, declared ::
              Entails(selected, declared) && !(AlternativesChoices(selected) <= AlternativesChoices(declared))
  {
    var declared := OneConjunction(OneTerm(Plain("a")));
    var selected := OneConjunction(And(OneTerm(Plain("a")), Plain("b")));
    assert Lower("a") == "a" && Lower("b") == "b";
    assert {"a"} in AlternativesChoices(declared);
    assert {"a"} + {"b"} in AlternativesChoices(selected);
    assert "b" in {"a"} + {"b"};
    assert Entails(selected, declared);
  }

  datatype Rejection = InvalidExpression | NotDeclared

  /** A pair of a declared and a selected expression, both valid, whose selected choices are declared ones. */
  predicate Accepted(pair: (string, string)) {
    && ChoicesOf(pair.1).Some? && ChoicesOf(pair.0).Some?
    && ChoicesOf(pair.1).value <= ChoicesOf(pair.0).value
  }

  /** `validate_selections` over the items of the selection table, in order. */
  method ValidateSelections(selections: seq<(string, string)>) returns (result: Result<(), Rejection>)
    ensures result.Ok? <==> forall i :: 0 <= i < |selections| ==> Accepted(selections[i])
    // The first pair that is not accepted decides the error.
    ensures result.Err? ==>
            exists i ::
              && 0 <= i < |selections| && (forall j :: 0 <= j < i ==> Accepted(selections[j]))
              && !Accepted(selections[i])
              && (result.error.NotDeclared? <==>
                    ChoicesOf(selections[i].1).Some? && ChoicesOf(selections[i].0).Some?)
    ensures result.Ok? ==>
            forall i :: 0 <= i < |selections| ==>
              && Parse(Tokens(selections[i].1)).Some? && Parse(Tokens(selections[i].0)).Some?
              && Entails(Parse(Tokens(selections[i].1)).value, Parse(Tokens(selections[i].0)).value)
  {
    for i := 0 to |selections|
      invariant forall j :: 0 <= j < i ==> Accepted(selections[j])
    {
      var selected := LicenseChoices(selections[i].1);
      var declared := LicenseChoices(selections[i].0);
      if selected.None? || declared.None? {
        return Err(InvalidExpression);
      }
      if !(selected.value <= declared.value) {
        return Err(NotDeclared);
      }
    }
    forall i | 0 <= i < |selections|
      ensures && Parse(Tokens(selections[i].1)).Some? && Parse(Tokens(selections[i].0)).Some?
              && Entails(Parse(Tokens(selections[i].1)).value, Parse(Tokens(selections[i].0)).value)
    {
      SelectionIsSound(Parse(Tokens(selections[i].1)).value, Parse(Tokens(selections[i].0)).value);
    }
    result := Ok(());
  }
}
