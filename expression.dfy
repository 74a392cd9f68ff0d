/** `evaluateExpression`: the free-text cell evaluator of the receipt form
    (and its textual copy in the receipt viewer). The text is cleaned to the
    characters `0-9 + - * / .`, a trailing run of operators and dots is cut
    off, and what is left is evaluated as a JavaScript expression in strict
    mode. The JavaScript grammar over that alphabet is modelled by a
    tokenizer (numerals, the four operators, `//` and block comments) and a
    recursive-descent parser with the usual precedence; anything the
    JavaScript parser would refuse, and any non-finite result, gives 0. */
module Expression {
  import opened Js

  /** The characters the first clean-up step keeps. */
  predicate IsExpressionChar(c: char) {
    IsDigit(c) || c == '+' || c == '-' || c == '*' || c == '/' || c == '.'
  }

  /** The characters the second clean-up step cuts from the end. */
  predicate IsTrailingJunk(c: char) {
    c == '+' || c == '-' || c == '*' || c == '/' || c == '.'
  }

  /** Drops every character outside `0-9 + - * / .`. */
  function Sanitize(s: string): (r: string)
    ensures |r| <= |s|
    ensures forall i :: 0 <= i < |r| ==> IsExpressionChar(r[i])
    ensures (forall i :: 0 <= i < |s| ==> IsExpressionChar(s[i])) ==> r == s
    ensures (forall i :: 0 <= i < |s| ==> !IsExpressionChar(s[i])) ==> r == ""
  {
    if s == [] then [] else (if IsExpressionChar(s[0]) then [s[0]] else []) + Sanitize(s[1..])
  }

  /** Cuts the trailing run of operators and dots. */
  function StripTrailing(s: string): (r: string)
    ensures |r| <= |s| && r == s[..|r|]
    ensures r == "" || !IsTrailingJunk(r[|r| - 1])
    ensures forall i :: |r| <= i < |s| ==> IsTrailingJunk(s[i])
  {
    if s != [] && IsTrailingJunk(s[|s| - 1]) then StripTrailing(s[..|s| - 1]) else s
  }

  // ---------------------------------------------------------------------------
  // Values: finite reals, or a non-finite result (an infinity or NaN).

  /** Over this alphabet a divisor is always a signed numeral, so once a
      result is non-finite every later operation keeps it non-finite. */
  datatype Value = Finite(x: real) | NonFinite

  function Apply(op: char, a: Value, b: Value): Value {
    match (a, b)
    case (Finite(x), Finite(y)) =>
      if op == '+' then Finite(x + y)
      else if op == '-' then Finite(x - y)
      else if op == '*' then Finite(x * y)
      else if y == 0.0 then NonFinite
      else Finite(x / y)
    case _ => NonFinite
  }

  function Negated(v: Value): Value {
    match v
    case Finite(x) => Finite(-x)
    case NonFinite => NonFinite
  }

  // ---------------------------------------------------------------------------
  // Tokens

  datatype Token = Number(value: real) | Op(symbol: char)

  datatype Lexed = Tokens(toks: seq<Token>) | LexError

  /** Length of the run of digits and dots at the front of `s`. */
  function NumeralRun(s: string): (k: nat)
    ensures k <= |s|
    ensures forall i :: 0 <= i < k ==> IsDigit(s[i]) || s[i] == '.'
    ensures k < |s| ==> !IsDigit(s[k]) && s[k] != '.'
  {
    if s == [] || !(IsDigit(s[0]) || s[0] == '.') then 0 else 1 + NumeralRun(s[1..])
  }

  /** A numeric literal in strict mode: `d+`, `d+.d*` or `.d+`, where an
      integer part of two or more digits may not start with `0` (that would
      be a legacy octal literal). A run with two dots reads as two adjacent
      literals, which is a syntax error as well. */
  function NumeralValue(run: string): (r: Option<real>)
    ensures r.Some? ==> run != "" && !(DigitPrefix(run) >= 2 && run[0] == '0')
  {
    if DigitPrefix(run) >= 2 && run[0] == '0' then None else UnsignedDecimal(run)
  }

  // Position of the first closing star-slash pair in `t`.
  function CommentEnd(t: string): (r: Option<nat>)
    ensures r.Some? ==> r.value + 2 <= |t| && t[r.value] == '*' && t[r.value + 1] == '/'
    ensures r.Some? ==> forall j :: 0 <= j < r.value ==> !(t[j] == '*' && t[j + 1] == '/')
    ensures r.None? ==> forall j :: 0 <= j < |t| - 1 ==> !(t[j] == '*' && t[j + 1] == '/')
  {
    if |t| < 2 then None
    else if t[0] == '*' && t[1] == '/' then Some(0)
    else match CommentEnd(t[1..])
      case None => None
      case Some(j) => Some(j + 1)
  }

  function Prepend(t: Token, l: Lexed): Lexed {
    match l
    case LexError => LexError
    case Tokens(ts) => Tokens([t] + ts)
  }

  /** The JavaScript lexer on cleaned text. `++` and `--` are update
      operators, which cannot apply to a literal, so they are errors; `**`
      (exponentiation) is refused as well. `//` comments out the rest of the
      text, and a block comment must be closed. */
  function Tokenize(s: string): Lexed
    decreases |s|
  {
    if s == [] then Tokens([])
    else if IsDigit(s[0]) || s[0] == '.' then
      var k := NumeralRun(s);
      match NumeralValue(s[..k])
      case None => LexError
      case Some(x) => Prepend(Number(x), Tokenize(s[k..]))
    else if s[0] == '/' && |s| >= 2 && s[1] == '/' then Tokens([])
    else if s[0] == '/' && |s| >= 2 && s[1] == '*' then
      match CommentEnd(s[2..])
      case None => LexError
      case Some(j) => Tokenize(s[j + 4..])
    else if (s[0] == '+' || s[0] == '-' || s[0] == '*') && |s| >= 2 && s[1] == s[0] then LexError
    else if s[0] == '+' || s[0] == '-' || s[0] == '*' || s[0] == '/' then
      Prepend(Op(s[0]), Tokenize(s[1..]))
    else LexError
  }

  // ---------------------------------------------------------------------------
  // Parser: Expr := Term (('+' | '-') Term)*, Term := Unary (('*' | '/') Unary)*,
  // Unary := ('+' | '-') Unary | Number. A '/' where an operand is expected
  // would start a regular-expression literal, whose value is never a finite
  // number; the parser refuses it, which gives the same result, 0.

  datatype Parsed = Parsed(value: Value, rest: seq<Token>)

  function ParseUnary(ts: seq<Token>): (r: Option<Parsed>)
    ensures r.Some? ==> |r.value.rest| < |ts|
    decreases |ts|
  {
    if ts == [] then None
    else match ts[0]
      case Number(x) => Some(Parsed(Finite(x), ts[1..]))
      case Op(c) =>
        if c == '+' then ParseUnary(ts[1..])
        else if c == '-' then
          match ParseUnary(ts[1..])
          case None => None
          case Some(p) => Some(Parsed(Negated(p.value), p.rest))
        else None
  }

  function ParseTermRest(acc: Value, ts: seq<Token>): (r: Option<Parsed>)
    ensures r.Some? ==> |r.value.rest| <= |ts|
    decreases |ts|
  {
    if ts != [] && (ts[0] == Op('*') || ts[0] == Op('/')) then
      match ParseUnary(ts[1..])
      case None => None
      case Some(p) => ParseTermRest(Apply(ts[0].symbol, acc, p.value), p.rest)
    else Some(Parsed(acc, ts))
  }

  function ParseTerm(ts: seq<Token>): (r: Option<Parsed>)
    ensures r.Some? ==> |r.value.rest| < |ts|
  {
    match ParseUnary(ts)
    case None => None
    case Some(p) => ParseTermRest(p.value, p.rest)
  }

  function ParseExprRest(acc: Value, ts: seq<Token>): (r: Option<Parsed>)
    ensures r.Some? ==> |r.value.rest| <= |ts|
    decreases |ts|
  {
    if ts != [] && (ts[0] == Op('+') || ts[0] == Op('-')) then
      match ParseTerm(ts[1..])
      case None => None
      case Some(p) => ParseExprRest(Apply(ts[0].symbol, acc, p.value), p.rest)
    else Some(Parsed(acc, ts))
  }

  function ParseExpr(ts: seq<Token>): (r: Option<Parsed>)
    ensures r.Some? ==> |r.value.rest| < |ts|
  {
    match ParseTerm(ts)
    case None => None
    case Some(p) => ParseExprRest(p.value, p.rest)
  }

  /** `eval` on cleaned text: None is a syntax error. */
  function Eval(s: string): Option<Value> {
    match Tokenize(s)
    case LexError => None
    case Tokens(ts) =>
      match ParseExpr(ts)
      case Some(p) => if p.rest == [] then Some(p.value) else None
      case None => None
  }

  /** `evaluateExpression(expression)`: never fails; a non-string, blank
      (`trim()` empty, see `TrimEmptyIffBlank`),
      malformed or non-finite input gives 0. */
  function EvaluateExpression(e: JsVal): (r: real)
    ensures !e.Str? ==> r == 0.0
    ensures e.Str? && IsBlank(e.s) ==> r == 0.0
    ensures r != 0.0 ==> e.Str? && Eval(StripTrailing(Sanitize(e.s))) == Some(Finite(r))
    ensures e.Str? && !IsBlank(e.s) && Eval(StripTrailing(Sanitize(e.s))).Some?
            && Eval(StripTrailing(Sanitize(e.s))).value.Finite?
            ==> r == Eval(StripTrailing(Sanitize(e.s))).value.x
  {
    if !e.Str? || IsBlank(e.s) then 0.0
    else
      var cleaned := StripTrailing(Sanitize(e.s));
      if cleaned == "" then 0.0
      else match Eval(cleaned)
        case Some(Finite(x)) => x
        case _ => 0.0
  }

  // ---------------------------------------------------------------------------
  // Lemmas

  lemma {:induction false} SanitizeAppend(a: string, b: string)
    ensures Sanitize(a + b) == Sanitize(a) + Sanitize(b)
    decreases |a|
  {
    if a == [] {
      assert a + b == b;
    } else {
      assert (a + b)[1..] == a[1..] + b;
      SanitizeAppend(a[1..], b);
    }
  }

  lemma {:induction false} StripTrailingAppend(x: string, t: string)
    requires forall i :: 0 <= i < |t| ==> IsTrailingJunk(t[i])
    ensures StripTrailing(x + t) == StripTrailing(x)
    decreases |t|
  {
    if t == [] {
      assert x + t == x;
    } else {
      var t' := t[..|t| - 1];
      assert (x + t)[..|x + t| - 1] == x + t';
      StripTrailingAppend(x, t');
    }
  }

  /** Whitespace-only text has nothing left after cleaning. */
  lemma {:induction false} SanitizeBlank(s: string)
    requires IsBlank(s)
    ensures Sanitize(s) == ""
  {
    forall i | 0 <= i < |s| ensures !IsExpressionChar(s[i]) {
      assert IsWhitespace(s[i]);
    }
  }

  lemma {:induction false} CleanedNotBlank(s: string)
    requires s != ""
    requires forall i :: 0 <= i < |s| ==> IsExpressionChar(s[i])
    ensures !IsBlank(s)
  {
    assert !IsWhitespace(s[0]);
  }

  /** Characters outside `0-9 + - * / .` are ignored: evaluating the text
      and evaluating the text with them removed give the same number. */
  lemma DroppedCharactersIgnored(s: string)
    ensures EvaluateExpression(Str(s)) == EvaluateExpression(Str(Sanitize(s)))
  {
    var c := Sanitize(s);
    assert Sanitize(c) == c;
    if IsBlank(s) {
      SanitizeBlank(s);
      assert c == "";
    } else if c != "" {
      CleanedNotBlank(c);
    }
  }

  /** A trailing run of operators and dots is ignored: `"5+3-"` evaluates
      as `"5+3"`. */
  lemma TrailingOperatorsIgnored(s: string, t: string)
    requires forall i :: 0 <= i < |t| ==> IsTrailingJunk(t[i])
    ensures EvaluateExpression(Str(s + t)) == EvaluateExpression(Str(s))
  {
    assert Sanitize(t) == t;
    SanitizeAppend(s, t);
    StripTrailingAppend(Sanitize(s), t);
    if IsBlank(s) {
      SanitizeBlank(s);
      assert Sanitize(s) == "";
      assert StripTrailing(Sanitize(s + t)) == StripTrailing("");
    }
    if IsBlank(s + t) {
      SanitizeBlank(s + t);
      assert StripTrailing(Sanitize(s + t)) == "";
    }
  }

  lemma {:induction false} NumeralRunOfDigits(ds: string, rest: string)
    requires AllDigits(ds)
    requires rest == "" || (!IsDigit(rest[0]) && rest[0] != '.')
    ensures NumeralRun(ds + rest) == |ds|
    decreases |ds|
  {
    if ds != [] {
      assert (ds + rest)[1..] == ds[1..] + rest;
      NumeralRunOfDigits(ds[1..], rest);
    } else {
      assert ds + rest == rest;
    }
  }

  /** The decimal text of a natural number, followed by text that does not
      continue the numeral, lexes as that number first. */
  lemma {:induction false} TokenizeNumeral(n: nat, rest: string)
    requires rest == "" || (!IsDigit(rest[0]) && rest[0] != '.')
    ensures Tokenize(NatToString(n) + rest) == Prepend(Number(n as real), Tokenize(rest))
  {
    var s := NatToString(n);
    var t := s + rest;
    NumeralRunOfDigits(s, rest);
    assert t[..|s|] == s;
    assert t[|s|..] == rest;
    DigitPrefixOfDigits(s, "");
    assert s + "" == s;
    UnsignedDecimalOfNumeral(n);
    assert NumeralValue(s) == Some(n as real);
  }

  lemma {:induction false} CleanNumeral(s: string)
    requires s != "" && IsDigit(s[|s| - 1])
    requires forall i :: 0 <= i < |s| ==> IsExpressionChar(s[i])
    ensures !IsBlank(s) && StripTrailing(Sanitize(s)) == s
  {
    CleanedNotBlank(s);
    assert Sanitize(s) == s;
    assert !IsTrailingJunk(s[|s| - 1]);
  }

  /** A plain numeral evaluates to its value. */
  lemma EvaluateNumeral(n: nat)
    ensures EvaluateExpression(Str(NatToString(n))) == n as real
  {
    assert FlatText(n, []) == NatToString(n) + "";
    assert NatToString(n) + "" == NatToString(n);
    EvaluateFinite(n, [], n as real);
  }

  /** A single operator character not doubled and not opening a comment lexes as that operator. */
  lemma {:induction false} TokenizeOp(c: char, rest: string)
    requires c == '+' || c == '-' || c == '*' || c == '/'
    requires rest != "" && rest[0] != c && rest[0] != '*'
    ensures Tokenize([c] + rest) == Prepend(Op(c), Tokenize(rest))
  {
    assert ([c] + rest)[1..] == rest;
  }

  lemma {:induction false} TokenizeSingleNumeral(n: nat)
    ensures Tokenize(NatToString(n)) == Tokens([Number(n as real)])
  {
    TokenizeNumeral(n, "");
    assert NatToString(n) + "" == NatToString(n);
  }

  lemma {:induction false} TokenizePlusNumeral(n: nat)
    ensures Tokenize("+" + NatToString(n)) == Tokens([Op('+'), Number(n as real)])
  {
    TokenizeSingleNumeral(n);
    TokenizeOp('+', NatToString(n));
    assert "+" + NatToString(n) == ['+'] + NatToString(n);
  }

  lemma SumTokens(m: nat, n: nat)
    ensures Tokenize(NatToString(m) + "+" + NatToString(n))
         == Tokens([Number(m as real), Op('+'), Number(n as real)])
  {
    var a, b := NatToString(m), NatToString(n);
    var r := "+" + b;
    JoinAround(a, '+', b);
    assert r[0] == '+';
    TokenizeNumeral(m, r);
    TokenizePlusNumeral(n);
    PrependOp(Number(m as real), Op('+'), Number(n as real));
  }

  lemma JoinAround(a: string, c: char, b: string)
    ensures a + [c] + b == a + ([c] + b)
  {
  }

  lemma PrependOp(x: Token, y: Token, z: Token)
    ensures Prepend(x, Tokens([y, z])) == Tokens([x, y, z])
  {
    assert [x] + [y, z] == [x, y, z];
  }

  lemma {:induction false} EvalOfTokens(s: string, ts: seq<Token>, v: Value)
    requires Tokenize(s) == Tokens(ts) && ParseExpr(ts) == Some(Parsed(v, []))
    ensures Eval(s) == Some(v)
  {
  }

  lemma ParseSum(x: real, y: real)
    ensures ParseExpr([Number(x), Op('+'), Number(y)]) == Some(Parsed(Finite(x + y), []))
  {
    var ts := [Number(x), Op('+'), Number(y)];
    assert ParseTerm(ts) == Some(Parsed(Finite(x), ts[1..]));
    assert ParseTerm(ts[2..]) == Some(Parsed(Finite(y), []));
    assert ParseExprRest(Finite(x + y), []) == Some(Parsed(Finite(x + y), []));
    assert ParseExprRest(Finite(x), ts[1..]) == Some(Parsed(Finite(x + y), []));
  }

  lemma {:induction false} EvalSum(m: nat, n: nat)
    ensures Eval(NatToString(m) + "+" + NatToString(n)) == Some(Finite((m + n) as real))
  {
    var ts := [Number(m as real), Op('+'), Number(n as real)];
    SumTokens(m, n);
    ParseSum(m as real, n as real);
    EvalOfTokens(NatToString(m) + "+" + NatToString(n), ts, Finite((m + n) as real));
  }

  lemma {:induction false} EvaluateClean(s: string, x: real)
    requires s != "" && IsDigit(s[|s| - 1])
    requires forall i :: 0 <= i < |s| ==> IsExpressionChar(s[i])
    requires Eval(s) == Some(Finite(x))
    ensures EvaluateExpression(Str(s)) == x
  {
    CleanNumeral(s);
  }

  lemma {:induction false} SumIsClean(a: string, b: string)
    requires AllDigits(a) && AllDigits(b) && b != ""
    ensures var s := a + "+" + b;
      s[|s| - 1] == b[|b| - 1] && forall i :: 0 <= i < |s| ==> IsExpressionChar(s[i])
  {
    var s := a + "+" + b;
    forall i | 0 <= i < |s| ensures IsExpressionChar(s[i]) {
      if i < |a| { assert s[i] == a[i]; }
      else if i > |a| { assert s[i] == b[i - |a| - 1]; }
    }
  }

  /** `"m+n"` evaluates to m + n. */
  lemma EvaluateSum(m: nat, n: nat)
    ensures EvaluateExpression(Str(NatToString(m) + "+" + NatToString(n))) == (m + n) as real
  {
    SumIsClean(NatToString(m), NatToString(n));
    EvalSum(m, n);
    EvaluateClean(NatToString(m) + "+" + NatToString(n), (m + n) as real);
  }

  /** A sum followed by trailing operators, such as `"5+3-"`, still
      evaluates to the sum. */
  lemma SumWithTrailingOperators(m: nat, n: nat, t: string)
    requires forall i :: 0 <= i < |t| ==> IsTrailingJunk(t[i])
    ensures EvaluateExpression(Str(NatToString(m) + "+" + NatToString(n) + t)) == (m + n) as real
  {
    TrailingOperatorsIgnored(NatToString(m) + "+" + NatToString(n), t);
    EvaluateSum(m, n);
  }

  // ---------------------------------------------------------------------------
  // Flat expressions: a numeral followed by operator-numeral steps, such as
  // `2+3*4-6/2`. Their value is given independently of the parser, by the
  // two-register evaluation of a calculator with precedence: a running sum, the
  // operator waiting to add the current product, and the current product.

  datatype Step = Step(op: char, operand: nat)

  predicate IsBinaryOp(c: char) {
    c == '+' || c == '-' || c == '*' || c == '/'
  }

  predicate IsMulOp(c: char) {
    c == '*' || c == '/'
  }

  predicate BinarySteps(steps: seq<Step>) {
    forall i :: 0 <= i < |steps| ==> IsBinaryOp(steps[i].op)
  }

  /** The text `op1 n1 op2 n2 ...` of the steps. */
  function StepsText(steps: seq<Step>): string {
    if steps == [] then "" else [steps[0].op] + (NatToString(steps[0].operand) + StepsText(steps[1..]))
  }

  function FlatText(first: nat, steps: seq<Step>): string {
    NatToString(first) + StepsText(steps)
  }

  function StepTokens(steps: seq<Step>): seq<Token> {
    if steps == [] then [] else [Op(steps[0].op), Number(steps[0].operand as real)] + StepTokens(steps[1..])
  }

  /** A '*' or '/' step works on the product; a '+' or '-' step adds the
      product to the sum with the waiting operator and starts a new product. */
  function Accumulate(sum: Value, pending: char, product: Value, steps: seq<Step>): Value
    decreases |steps|
  {
    if steps == [] then Apply(pending, sum, product)
    else if IsMulOp(steps[0].op) then
      Accumulate(sum, pending, Apply(steps[0].op, product, Finite(steps[0].operand as real)), steps[1..])
    else Accumulate(Apply(pending, sum, product), steps[0].op, Finite(steps[0].operand as real), steps[1..])
  }

  function FlatValue(first: nat, steps: seq<Step>): Value {
    Accumulate(Finite(0.0), '+', Finite(first as real), steps)
  }

  // The leading '*' and '/' steps folded into `acc`, and the steps after them.
  function MulFold(acc: Value, steps: seq<Step>): Value
    decreases |steps|
  {
    if steps != [] && IsMulOp(steps[0].op) then
      MulFold(Apply(steps[0].op, acc, Finite(steps[0].operand as real)), steps[1..])
    else acc
  }

  function DropMul(steps: seq<Step>): (r: seq<Step>)
    ensures |r| <= |steps|
    ensures r == [] || !IsMulOp(r[0].op)
    decreases |steps|
  {
    if steps != [] && IsMulOp(steps[0].op) then DropMul(steps[1..]) else steps
  }

  lemma {:induction false} StepTokensCons(steps: seq<Step>)
    requires steps != []
    ensures StepTokens(steps) == [Op(steps[0].op)] + ([Number(steps[0].operand as real)] + StepTokens(steps[1..]))
  {
    assert [Op(steps[0].op), Number(steps[0].operand as real)] == [Op(steps[0].op)] + [Number(steps[0].operand as real)];
  }

  lemma {:induction false} ParseTermRestOfSteps(acc: Value, steps: seq<Step>)
    ensures ParseTermRest(acc, StepTokens(steps)) == Some(Parsed(MulFold(acc, steps), StepTokens(DropMul(steps))))
    decreases |steps|
  {
    if steps != [] && IsMulOp(steps[0].op) {
      var ts := StepTokens(steps);
      StepTokensCons(steps);
      var x := steps[0].operand as real;
      assert ts[1..] == [Number(x)] + StepTokens(steps[1..]);
      assert ParseUnary(ts[1..]) == Some(Parsed(Finite(x), StepTokens(steps[1..])));
      ParseTermRestOfSteps(Apply(steps[0].op, acc, Finite(x)), steps[1..]);
    } else if steps != [] {
      StepTokensCons(steps);
    }
  }

  lemma {:induction false} AccumulateMulFold(sum: Value, pending: char, product: Value, steps: seq<Step>)
    ensures Accumulate(sum, pending, product, steps) == Accumulate(sum, pending, MulFold(product, steps), DropMul(steps))
    decreases |steps|
  {
    if steps != [] && IsMulOp(steps[0].op) {
      AccumulateMulFold(sum, pending, Apply(steps[0].op, product, Finite(steps[0].operand as real)), steps[1..]);
    }
  }

  lemma {:induction false} ParseTermOfSteps(steps: seq<Step>)
    requires steps != []
    ensures ParseTerm(StepTokens(steps)[1..])
         == Some(Parsed(MulFold(Finite(steps[0].operand as real), steps[1..]), StepTokens(DropMul(steps[1..]))))
  {
    var ts := StepTokens(steps);
    StepTokensCons(steps);
    var x := steps[0].operand as real;
    assert ts[1..] == [Number(x)] + StepTokens(steps[1..]);
    assert ParseUnary(ts[1..]) == Some(Parsed(Finite(x), StepTokens(steps[1..])));
    ParseTermRestOfSteps(Finite(x), steps[1..]);
  }

  lemma {:induction false} ParseExprRestOfSteps(sum: Value, pending: char, product: Value, steps: seq<Step>)
    requires BinarySteps(steps)
    requires steps == [] || !IsMulOp(steps[0].op)
    ensures ParseExprRest(Apply(pending, sum, product), StepTokens(steps))
         == Some(Parsed(Accumulate(sum, pending, product, steps), []))
    decreases |steps|
  {
    if steps != [] {
      var op, x := steps[0].op, steps[0].operand as real;
      var ts := StepTokens(steps);
      StepTokensCons(steps);
      assert ts[0] == Op(op) && (op == '+' || op == '-');
      ParseTermOfSteps(steps);
      var tail := steps[1..];
      assert BinarySteps(DropMul(tail)) by { DropMulBinary(tail); }
      ParseExprRestOfSteps(Apply(pending, sum, product), op, MulFold(Finite(x), tail), DropMul(tail));
      AccumulateMulFold(Apply(pending, sum, product), op, Finite(x), tail);
    }
  }

  lemma {:induction false} DropMulBinary(steps: seq<Step>)
    requires BinarySteps(steps)
    ensures BinarySteps(DropMul(steps))
    decreases |steps|
  {
    if steps != [] && IsMulOp(steps[0].op) {
      DropMulBinary(steps[1..]);
    }
  }

  lemma PlusZero(v: Value)
    ensures Apply('+', Finite(0.0), v) == v
  {
  }

  /** The parser evaluates every flat expression to the value of the
      two-register evaluation: products first, then sums and differences
      from left to right. */
  lemma {:induction false} ParseFlatExpression(first: nat, steps: seq<Step>)
    requires BinarySteps(steps)
    ensures ParseExpr([Number(first as real)] + StepTokens(steps)) == Some(Parsed(FlatValue(first, steps), []))
  {
    var ts := [Number(first as real)] + StepTokens(steps);
    assert ts[1..] == StepTokens(steps);
    assert ParseUnary(ts) == Some(Parsed(Finite(first as real), StepTokens(steps)));
    ParseTermRestOfSteps(Finite(first as real), steps);
    var p := MulFold(Finite(first as real), steps);
    PlusZero(p);
    DropMulBinary(steps);
    ParseExprRestOfSteps(Finite(0.0), '+', p, DropMul(steps));
    AccumulateMulFold(Finite(0.0), '+', Finite(first as real), steps);
  }

  lemma {:induction false} TokenizeSteps(steps: seq<Step>)
    requires BinarySteps(steps)
    ensures Tokenize(StepsText(steps)) == Tokens(StepTokens(steps))
    decreases |steps|
  {
    if steps != [] {
      var op, n := steps[0].op, steps[0].operand;
      var tail := StepsText(steps[1..]);
      var rest := NatToString(n) + tail;
      assert tail == "" || tail[0] == steps[1].op;
      TokenizeNumeral(n, tail);
      TokenizeSteps(steps[1..]);
      TokenizeOp(op, rest);
      StepTokensCons(steps);
    }
  }

  lemma {:induction false} TokenizeFlat(first: nat, steps: seq<Step>)
    requires BinarySteps(steps)
    ensures Tokenize(FlatText(first, steps)) == Tokens([Number(first as real)] + StepTokens(steps))
  {
    var tail := StepsText(steps);
    assert tail == "" || tail[0] == steps[0].op;
    TokenizeNumeral(first, tail);
    TokenizeSteps(steps);
  }

  lemma {:induction false} StepsTextClean(steps: seq<Step>)
    requires BinarySteps(steps)
    ensures forall i :: 0 <= i < |StepsText(steps)| ==> IsExpressionChar(StepsText(steps)[i])
    ensures steps != [] ==> IsDigit(StepsText(steps)[|StepsText(steps)| - 1])
    decreases |steps|
  {
    if steps != [] {
      var head, num, tail := [steps[0].op], NatToString(steps[0].operand), StepsText(steps[1..]);
      StepsTextClean(steps[1..]);
      var t := StepsText(steps);
      assert t == head + num + tail;
      forall i | 0 <= i < |t| ensures IsExpressionChar(t[i]) {
        if i == 0 { assert t[i] == steps[0].op; }
        else if i <= |num| { assert t[i] == num[i - 1]; }
        else { assert t[i] == tail[i - 1 - |num|]; }
      }
      if steps[1..] == [] {
        assert t[|t| - 1] == num[|num| - 1];
      } else {
        assert t[|t| - 1] == tail[|tail| - 1];
      }
    }
  }

  lemma {:induction false} FlatTextClean(first: nat, steps: seq<Step>)
    requires BinarySteps(steps)
    ensures var s := FlatText(first, steps);
      s != "" && IsDigit(s[|s| - 1]) && forall i :: 0 <= i < |s| ==> IsExpressionChar(s[i])
  {
    var num, tail := NatToString(first), StepsText(steps);
    StepsTextClean(steps);
    var s := FlatText(first, steps);
    forall i | 0 <= i < |s| ensures IsExpressionChar(s[i]) {
      if i < |num| { assert s[i] == num[i]; }
      else { assert s[i] == tail[i - |num|]; }
    }
    if steps == [] {
      assert s[|s| - 1] == num[|num| - 1];
    } else {
      assert s[|s| - 1] == tail[|tail| - 1];
    }
  }

  /** Every flat expression evaluates to the value of the two-register
      evaluation, or to 0 when that value is not finite. */
  lemma {:induction false} EvaluateFlat(first: nat, steps: seq<Step>)
    requires BinarySteps(steps)
    ensures EvaluateExpression(Str(FlatText(first, steps)))
         == (match FlatValue(first, steps) case Finite(x) => x case NonFinite => 0.0)
  {
    var s := FlatText(first, steps);
    FlatTextClean(first, steps);
    CleanNumeral(s);
    TokenizeFlat(first, steps);
    ParseFlatExpression(first, steps);
    EvalOfTokens(s, [Number(first as real)] + StepTokens(steps), FlatValue(first, steps));
  }

  /** A flat expression whose two-register value is finite evaluates to it. */
  lemma {:induction false} EvaluateFinite(first: nat, steps: seq<Step>, x: real)
    requires BinarySteps(steps) && FlatValue(first, steps) == Finite(x)
    ensures EvaluateExpression(Str(FlatText(first, steps))) == x
  {
    EvaluateFlat(first, steps);
  }

  /** Multiplication binds tighter than addition: `m+n*k` is m + n·k. */
  lemma SumOfProduct(m: nat, n: nat, k: nat)
    ensures EvaluateExpression(Str(FlatText(m, [Step('+', n), Step('*', k)])))
         == m as real + n as real * k as real
  {
    SumOfProductValue(m, n, k);
    EvaluateFinite(m, [Step('+', n), Step('*', k)], m as real + n as real * k as real);
  }

  lemma {:induction false} SumOfProductValue(m: nat, n: nat, k: nat)
    ensures FlatValue(m, [Step('+', n), Step('*', k)]) == Finite(m as real + n as real * k as real)
  {
    var steps := [Step('+', n), Step('*', k)];
    TwoSteps(steps);
    var x, y, z := Finite(m as real), Finite(n as real), Finite(k as real);
    var p := n as real * k as real;
    assert Apply('*', y, z) == Finite(p);
    assert FlatValue(m, steps) == Accumulate(x, '+', y, steps[1..]);
    assert Accumulate(x, '+', y, steps[1..]) == Accumulate(x, '+', Finite(p), []);
  }

  /** `m*n+k` is m·n + k. */
  lemma ProductThenSum(m: nat, n: nat, k: nat)
    ensures EvaluateExpression(Str(FlatText(m, [Step('*', n), Step('+', k)])))
         == m as real * n as real + k as real
  {
    ProductThenSumValue(m, n, k);
    EvaluateFinite(m, [Step('*', n), Step('+', k)], m as real * n as real + k as real);
  }

  lemma {:induction false} ProductThenSumValue(m: nat, n: nat, k: nat)
    ensures FlatValue(m, [Step('*', n), Step('+', k)]) == Finite(m as real * n as real + k as real)
  {
    var steps := [Step('*', n), Step('+', k)];
    TwoSteps(steps);
    var x, y, z := Finite(m as real), Finite(n as real), Finite(k as real);
    var p := m as real * n as real;
    assert Apply('*', x, y) == Finite(p);
    assert FlatValue(m, steps) == Accumulate(Finite(0.0), '+', Finite(p), steps[1..]);
    assert Accumulate(Finite(0.0), '+', Finite(p), steps[1..]) == Accumulate(Finite(p), '+', z, []);
  }

  /** Subtraction is left-associative: `m-n-k` is (m − n) − k. */
  lemma DifferenceIsLeftAssociative(m: nat, n: nat, k: nat)
    ensures EvaluateExpression(Str(FlatText(m, [Step('-', n), Step('-', k)])))
         == (m as real - n as real) - k as real
  {
    DifferenceValue(m, n, k);
    EvaluateFinite(m, [Step('-', n), Step('-', k)], (m as real - n as real) - k as real);
  }

  lemma {:induction false} DifferenceValue(m: nat, n: nat, k: nat)
    ensures FlatValue(m, [Step('-', n), Step('-', k)]) == Finite((m as real - n as real) - k as real)
  {
    var steps := [Step('-', n), Step('-', k)];
    TwoSteps(steps);
    var x, y, z := Finite(m as real), Finite(n as real), Finite(k as real);
    assert FlatValue(m, steps) == Accumulate(x, '-', y, steps[1..]);
    assert Accumulate(x, '-', y, steps[1..]) == Accumulate(Apply('-', x, y), '-', z, []);
  }

  lemma TwoSteps(steps: seq<Step>)
    requires |steps| == 2
    ensures steps[1..] == [steps[1]] && steps[1..][1..] == []
  {
  }

  lemma {:induction false} AccumulateNonFinite(sum: Value, pending: char, product: Value, steps: seq<Step>)
    requires sum == NonFinite || product == NonFinite
    ensures Accumulate(sum, pending, product, steps) == NonFinite
    decreases |steps|
  {
    if steps != [] {
      var x := Finite(steps[0].operand as real);
      if IsMulOp(steps[0].op) {
        AccumulateNonFinite(sum, pending, Apply(steps[0].op, product, x), steps[1..]);
      } else {
        AccumulateNonFinite(Apply(pending, sum, product), steps[0].op, x, steps[1..]);
      }
    }
  }

  lemma {:induction false} AccumulateDivisionByZero(sum: Value, pending: char, product: Value, steps: seq<Step>, i: nat)
    requires i < |steps| && steps[i] == Step('/', 0)
    ensures Accumulate(sum, pending, product, steps) == NonFinite
    decreases |steps|
  {
    var x := Finite(steps[0].operand as real);
    if i == 0 {
      AccumulateNonFinite(sum, pending, Apply('/', product, x), steps[1..]);
    } else if IsMulOp(steps[0].op) {
      AccumulateDivisionByZero(sum, pending, Apply(steps[0].op, product, x), steps[1..], i - 1);
    } else {
      AccumulateDivisionByZero(Apply(pending, sum, product), steps[0].op, x, steps[1..], i - 1);
    }
  }

  /** A division by the numeral 0 anywhere in a flat expression makes the
      result non-finite, so the cell counts as 0. */
  lemma DivisionByZero(first: nat, steps: seq<Step>, i: nat)
    requires BinarySteps(steps)
    requires i < |steps| && steps[i] == Step('/', 0)
    ensures EvaluateExpression(Str(FlatText(first, steps))) == 0.0
  {
    AccumulateDivisionByZero(Finite(0.0), '+', Finite(first as real), steps, i);
    EvaluateFlat(first, steps);
  }

  /** `++` or `--` right after a numeral is an update operator applied to a
      literal, a syntax error whatever follows. */
  lemma UpdateOperatorIsMalformed(n: nat, c: char, rest: string)
    requires c == '+' || c == '-'
    ensures Eval(NatToString(n) + ([c, c] + rest)) == None
  {
    var t := [c, c] + rest;
    assert t[0] == c && t[1] == c;
    assert Tokenize(t) == LexError;
    TokenizeNumeral(n, t);
  }
}
