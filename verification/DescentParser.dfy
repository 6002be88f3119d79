/** The recursive-descent parser of coroutine2/Recursive_descent_parsing.cpp. It reads one
    character ahead, skips white space, hands every character it accepts to a callback at
    once, and throws when it is stuck, so output appears before the input is known good.

    `Tokens` is the input without white space; the parser's decisions are specified on it,
    the grammar is given by its derivation trees, and the methods are tied to both. */
module DescentParser {

  /** What `is.get()` yields at the end of input, converted to a character. */
  const END: char := '\U{FF}'

  predicate IsSpace(c: char) {
    c == ' ' || c == '\t' || c == '\n' || c == '\r' || c == '\U{0B}' || c == '\U{0C}'
  }
  predicate IsDigit(c: char) { '0' <= c <= '9' }
  predicate IsSum(c: char) { c == '+' || c == '-' }
  predicate IsProduct(c: char) { c == '*' || c == '/' }
  predicate IsOperator(c: char) { IsSum(c) || IsProduct(c) }

  function Tokens(input: seq<char>): seq<char> {
    if input == [] then []
    else if IsSpace(input[0]) then Tokens(input[1..])
    else [input[0]] + Tokens(input[1..])
  }

  function Peek(ts: seq<char>, k: nat): char {
    if k < |ts| then ts[k] else END
  }

  // ----- the grammar

  /** Derivation trees: E = T | T (+|-) E, T = S | S (*|/) T, S = digit | ( E ). */
  datatype Expr = LastTerm(t: Term) | Sum(t: Term, op: char, e: Expr)
  datatype Term = LastFactor(s: Factor) | Product(s: Factor, op: char, t: Term)
  datatype Factor = Digit(c: char) | Paren(e: Expr)

  predicate ValidE(e: Expr) {
    match e
    case LastTerm(t) => ValidT(t)
    case Sum(t, op, r) => ValidT(t) && IsSum(op) && ValidE(r)
  }
  predicate ValidT(t: Term) {
    match t
    case LastFactor(s) => ValidS(s)
    case Product(s, op, r) => ValidS(s) && IsProduct(op) && ValidT(r)
  }
  predicate ValidS(s: Factor) {
    match s
    case Digit(c) => IsDigit(c)
    case Paren(e) => ValidE(e)
  }

  function TextE(e: Expr): seq<char> {
    match e
    case LastTerm(t) => TextT(t)
    case Sum(t, op, r) => TextT(t) + [op] + TextE(r)
  }
  function TextT(t: Term): seq<char> {
    match t
    case LastFactor(s) => TextS(s)
    case Product(s, op, r) => TextS(s) + [op] + TextT(r)
  }
  function TextS(s: Factor): seq<char> {
    match s
    case Digit(c) => [c]
    case Paren(e) => ['('] + TextE(e) + [')']
  }

  ghost predicate Sentence(w: seq<char>) {
    exists e :: ValidE(e) && TextE(e) == w
  }

  // ----- the parser on tokens

  /** How far a run got, and whether it returned or threw there. */
  datatype Outcome = Returned(end: nat) | Threw(end: nat, what: string)

  function ParseE(ts: seq<char>, k: nat): (r: Outcome)
    requires k <= |ts|
    ensures k <= r.end <= |ts| && (r.Returned? ==> k < r.end)
    decreases |ts| - k, 2
  {
    var r := ParseT(ts, k);
    if r.Returned? && IsSum(Peek(ts, r.end)) then ParseE(ts, r.end + 1) else r
  }

  function ParseT(ts: seq<char>, k: nat): (r: Outcome)
    requires k <= |ts|
    ensures k <= r.end <= |ts| && (r.Returned? ==> k < r.end)
    decreases |ts| - k, 1
  {
    var r := ParseS(ts, k);
    if r.Returned? && IsProduct(Peek(ts, r.end)) then ParseT(ts, r.end + 1) else r
  }

  function ParseS(ts: seq<char>, k: nat): (r: Outcome)
    requires k <= |ts|
    ensures k <= r.end <= |ts| && (r.Returned? ==> k < r.end)
    decreases |ts| - k, 0
  {
    if IsDigit(Peek(ts, k)) then Returned(k + 1)
    else if Peek(ts, k) == '(' then
      var r := ParseE(ts, k + 1);
      if r.Threw? then r
      else if Peek(ts, r.end) == ')' then Returned(r.end + 1) else Threw(r.end, "1")
    else Threw(k, "2")
  }

  /** What is left of E, or of T, after an operand that ended at j. */
  function RestE(ts: seq<char>, j: nat): Outcome
    requires j <= |ts|
  {
    if IsSum(Peek(ts, j)) then ParseE(ts, j + 1) else Returned(j)
  }

  function RestT(ts: seq<char>, j: nat): Outcome
    requires j <= |ts|
  {
    if IsProduct(Peek(ts, j)) then ParseT(ts, j + 1) else Returned(j)
  }

  lemma UnfoldE(ts: seq<char>, k: nat)
    requires k <= |ts|
    ensures var r := ParseT(ts, k); ParseE(ts, k) == if r.Returned? then RestE(ts, r.end) else r
  {
  }

  lemma UnfoldT(ts: seq<char>, k: nat)
    requires k <= |ts|
    ensures var r := ParseS(ts, k); ParseT(ts, k) == if r.Returned? then RestT(ts, r.end) else r
  {
  }

  lemma UnfoldS(ts: seq<char>, k: nat)
    requires k <= |ts|
    ensures ParseS(ts, k) ==
      if IsDigit(Peek(ts, k)) then Returned(k + 1)
      else if Peek(ts, k) == '(' then
        var r := ParseE(ts, k + 1);
        if r.Threw? then r
        else if Peek(ts, r.end) == ')' then Returned(r.end + 1) else Threw(r.end, "1")
      else Threw(k, "2")
  {
  }

  lemma SliceJoin(ts: seq<char>, k: nat, j: nat, end: nat)
    requires k <= j < end <= |ts|
    ensures ts[k..end] == ts[k..j] + [ts[j]] + ts[j + 1..end]
  {
  }

  // ----- soundness: what is accepted is a sentence, what is emitted is a prefix of one

  /** A return means the tokens passed are a sentence and no operator follows; a throw means
      they are a prefix of one. The tree shows it. */
  lemma {:induction false} SoundE(ts: seq<char>, k: nat) returns (e: Expr)
    requires k <= |ts|
    ensures ValidE(e)
    ensures var r := ParseE(ts, k);
      if r.Returned? then TextE(e) == ts[k..r.end] && !IsOperator(Peek(ts, r.end))
      else ts[k..r.end] <= TextE(e)
    decreases |ts| - k, 2
  {
    hide ParseE, ParseT;
    UnfoldE(ts, k);
    var r := ParseT(ts, k);
    var t := SoundT(ts, k);
    if r.Returned? && IsSum(Peek(ts, r.end)) {
      var rest := SoundE(ts, r.end + 1);
      e := Sum(t, ts[r.end], rest);
      SliceJoin(ts, k, r.end, ParseE(ts, r.end + 1).end);
    } else {
      e := LastTerm(t);
    }
  }

  lemma {:induction false} SoundT(ts: seq<char>, k: nat) returns (t: Term)
    requires k <= |ts|
    ensures ValidT(t)
    ensures var r := ParseT(ts, k);
      if r.Returned? then TextT(t) == ts[k..r.end] && !IsProduct(Peek(ts, r.end))
      else ts[k..r.end] <= TextT(t)
    decreases |ts| - k, 1
  {
    hide ParseT, ParseS;
    UnfoldT(ts, k);
    var r := ParseS(ts, k);
    var s := SoundS(ts, k);
    if r.Returned? && IsProduct(Peek(ts, r.end)) {
      var rest := SoundT(ts, r.end + 1);
      t := Product(s, ts[r.end], rest);
      SliceJoin(ts, k, r.end, ParseT(ts, r.end + 1).end);
    } else {
      t := LastFactor(s);
    }
  }

  lemma {:induction false} SoundS(ts: seq<char>, k: nat) returns (s: Factor)
    requires k <= |ts|
    ensures ValidS(s)
    ensures var r := ParseS(ts, k);
      if r.Returned? then TextS(s) == ts[k..r.end] else ts[k..r.end] <= TextS(s)
    decreases |ts| - k, 0
  {
    hide ParseE, ParseS;
    UnfoldS(ts, k);
    if IsDigit(Peek(ts, k)) {
      s := Digit(ts[k]);
    } else if Peek(ts, k) == '(' {
      var e := SoundE(ts, k + 1);
      s := Paren(e);
      var r := ParseE(ts, k + 1);
      SliceJoin(ts, k, k, r.end);
      assert ts[k..r.end] == ['('] + ts[k + 1..r.end];
      if r.Returned? && Peek(ts, r.end) == ')' {
        SliceJoin(ts, k, r.end, r.end + 1);
        assert ts[k..r.end + 1] == TextS(s);
      }
    } else {
      s := Digit('0');
    }
  }

  // ----- what a throw says

  /** "2" is thrown where an operand is missing, that is at the start, after an operator or
      after an opening parenthesis, and "1" where a closing parenthesis is. */
  predicate SaysWhy(ts: seq<char>, k: nat, r: Outcome)
    requires k <= r.end <= |ts| && (r.Returned? ==> k < r.end)
  {
    var c := Peek(ts, r.end);
    match r
    case Returned(end) => IsDigit(ts[end - 1]) || ts[end - 1] == ')'
    case Threw(end, what) =>
      if end == k || IsOperator(ts[end - 1]) || ts[end - 1] == '(' then what == "2" && !IsDigit(c) && c != '('
      else what == "1" && c != ')' && !IsOperator(c)
  }

  lemma {:induction false} ThrowsSayWhyE(ts: seq<char>, k: nat)
    requires k <= |ts|
    ensures SaysWhy(ts, k, ParseE(ts, k))
    decreases |ts| - k, 2
  {
    hide ParseE, ParseT;
    UnfoldE(ts, k);
    ThrowsSayWhyT(ts, k);
    var r := ParseT(ts, k);
    if r.Returned? && IsSum(Peek(ts, r.end)) {
      ThrowsSayWhyE(ts, r.end + 1);
    }
  }

  lemma {:induction false} ThrowsSayWhyT(ts: seq<char>, k: nat)
    requires k <= |ts|
    ensures SaysWhy(ts, k, ParseT(ts, k))
    decreases |ts| - k, 1
  {
    hide ParseT, ParseS;
    UnfoldT(ts, k);
    ThrowsSayWhyS(ts, k);
    var r := ParseS(ts, k);
    if r.Returned? && IsProduct(Peek(ts, r.end)) {
      ThrowsSayWhyT(ts, r.end + 1);
    }
  }

  lemma {:induction false} ThrowsSayWhyS(ts: seq<char>, k: nat)
    requires k <= |ts|
    ensures SaysWhy(ts, k, ParseS(ts, k))
    decreases |ts| - k, 0
  {
    hide ParseE, ParseS;
    UnfoldS(ts, k);
    if Peek(ts, k) == '(' {
      ThrowsSayWhyE(ts, k + 1);
      var e := SoundE(ts, k + 1);
    }
  }

  // ----- completeness: every sentence that is not followed by an operator is accepted

  ghost predicate Lies(ts: seq<char>, k: nat, w: seq<char>) {
    k + |w| <= |ts| && ts[k..k + |w|] == w
  }

  lemma LiesSplit(ts: seq<char>, k: nat, u: seq<char>, c: char, v: seq<char>)
    requires Lies(ts, k, u + [c] + v)
    ensures Lies(ts, k, u) && Peek(ts, k + |u|) == c && Lies(ts, k + |u| + 1, v)
  {
    var w := u + [c] + v;
    forall i | 0 <= i < |w| ensures ts[k + i] == w[i] {
      assert ts[k..k + |w|][i] == ts[k + i];
    }
    assert forall i :: 0 <= i < |u| ==> w[i] == u[i] && ts[k + i] == w[i];
    assert ts[k..k + |u|] == u;
    assert w[|u|] == c;
    assert forall i :: 0 <= i < |v| ==> w[|u| + 1 + i] == v[i] && ts[k + (|u| + 1 + i)] == w[|u| + 1 + i];
    assert ts[k + |u| + 1..k + |w|] == v;
  }

  lemma {:induction false} CompleteE(e: Expr, ts: seq<char>, k: nat)
    requires ValidE(e) && Lies(ts, k, TextE(e)) && !IsOperator(Peek(ts, k + |TextE(e)|))
    ensures ParseE(ts, k) == Returned(k + |TextE(e)|)
  {
    hide ParseE, ParseT;
    UnfoldE(ts, k);
    match e
    case LastTerm(t) => CompleteT(t, ts, k);
    case Sum(t, op, rest) =>
      LiesSplit(ts, k, TextT(t), op, TextE(rest));
      CompleteT(t, ts, k);
      CompleteE(rest, ts, k + |TextT(t)| + 1);
  }

  lemma {:induction false} CompleteT(t: Term, ts: seq<char>, k: nat)
    requires ValidT(t) && Lies(ts, k, TextT(t)) && !IsProduct(Peek(ts, k + |TextT(t)|))
    ensures ParseT(ts, k) == Returned(k + |TextT(t)|)
  {
    hide ParseT, ParseS;
    UnfoldT(ts, k);
    match t
    case LastFactor(s) => CompleteS(s, ts, k);
    case Product(s, op, rest) =>
      LiesSplit(ts, k, TextS(s), op, TextT(rest));
      CompleteS(s, ts, k);
      CompleteT(rest, ts, k + |TextS(s)| + 1);
  }

  lemma {:induction false} CompleteS(s: Factor, ts: seq<char>, k: nat)
    requires ValidS(s) && Lies(ts, k, TextS(s))
    ensures ParseS(ts, k) == Returned(k + |TextS(s)|)
  {
    hide ParseE, ParseS;
    UnfoldS(ts, k);
    match s
    case Digit(c) =>
      assert ts[k..k + 1][0] == c;
    case Paren(e) =>
      assert [] + ['('] + (TextE(e) + [')']) == TextS(s);
      LiesSplit(ts, k, [], '(', TextE(e) + [')']);
      assert TextE(e) + [')'] + [] == TextE(e) + [')'];
      LiesSplit(ts, k + 1, TextE(e), ')', []);
      CompleteE(e, ts, k + 1);
  }

  // ----- the theorems about a whole run

  /** w is a sentence at the start of the tokens, followed by no operator. */
  ghost predicate Accepted(ts: seq<char>, w: seq<char>) {
    Sentence(w) && w <= ts && !IsOperator(Peek(ts, |w|))
  }

  /** A run returns exactly when some sentence starts the input and is not followed by an
      operator; that sentence is unique, and it is what the run emits. */
  lemma ReturnsExactlyOnSentences(input: seq<char>)
    ensures var ts := Tokens(input);
      && (ParseE(ts, 0).Returned? <==> exists w :: Accepted(ts, w))
      && forall w :: Accepted(ts, w) ==> ParseE(ts, 0) == Returned(|w|) && w == ts[..ParseE(ts, 0).end]
  {
    var ts := Tokens(input);
    var r := ParseE(ts, 0);
    var e := SoundE(ts, 0);
    if r.Returned? {
      assert ts[0..r.end] == ts[..r.end];
      assert Accepted(ts, ts[..r.end]);
    }
    forall w | Accepted(ts, w) ensures r == Returned(|w|) && w == ts[..r.end] {
      var tree :| ValidE(tree) && TextE(tree) == w;
      assert ts[0..|w|] == w;
      CompleteE(tree, ts, 0);
    }
  }

  /** Whatever has been emitted when a run throws can still be completed to a sentence. */
  lemma EmittedIsAPrefixOfASentence(input: seq<char>)
    ensures var ts := Tokens(input);
      exists w :: Sentence(w) && ts[..ParseE(ts, 0).end] <= w
  {
    var ts := Tokens(input);
    var e := SoundE(ts, 0);
    assert Sentence(TextE(e));
    assert ts[0..ParseE(ts, 0).end] == ts[..ParseE(ts, 0).end];
  }

  lemma {:induction false} TextHasNoSpaceE(e: Expr)
    requires ValidE(e)
    ensures forall i :: 0 <= i < |TextE(e)| ==> !IsSpace(TextE(e)[i])
  {
    match e
    case LastTerm(t) => TextHasNoSpaceT(t);
    case Sum(t, _, rest) =>
      TextHasNoSpaceT(t);
      TextHasNoSpaceE(rest);
  }

  lemma {:induction false} TextHasNoSpaceT(t: Term)
    requires ValidT(t)
    ensures forall i :: 0 <= i < |TextT(t)| ==> !IsSpace(TextT(t)[i])
  {
    match t
    case LastFactor(s) => TextHasNoSpaceS(s);
    case Product(s, _, rest) =>
      TextHasNoSpaceS(s);
      TextHasNoSpaceT(rest);
  }

  lemma {:induction false} TextHasNoSpaceS(s: Factor)
    requires ValidS(s)
    ensures forall i :: 0 <= i < |TextS(s)| ==> !IsSpace(TextS(s)[i])
  {
    match s
    case Digit(_) =>
    case Paren(e) => TextHasNoSpaceE(e);
  }

  lemma {:induction false} TokensOfTokens(w: seq<char>)
    requires forall i :: 0 <= i < |w| ==> !IsSpace(w[i])
    ensures Tokens(w) == w
  {
    if w != [] {
      TokensOfTokens(w[1..]);
    }
  }

  /** Parsing the output of a run that returned accepts it and emits it unchanged. */
  lemma OutputParsesToItself(input: seq<char>)
    requires ParseE(Tokens(input), 0).Returned?
    ensures var out := Tokens(input)[..ParseE(Tokens(input), 0).end];
      Tokens(out) == out && ParseE(out, 0) == Returned(|out|)
  {
    var ts := Tokens(input);
    var e := SoundE(ts, 0);
    var out := ts[..ParseE(ts, 0).end];
    assert out == ts[0..ParseE(ts, 0).end] == TextE(e);
    TextHasNoSpaceE(e);
    TokensOfTokens(out);
    assert out[0..|out|] == out;
    CompleteE(e, out, 0);
  }

  // ----- characters

  /** Inputs are tokenised piece by piece. */
  lemma {:induction false} TokensAppend(a: seq<char>, b: seq<char>)
    ensures Tokens(a + b) == Tokens(a) + Tokens(b)
  {
    if a == [] {
      assert a + b == b;
    } else {
      assert (a + b)[1..] == a[1..] + b;
      TokensAppend(a[1..], b);
    }
  }

  /** Exactly blank, tab, newline, carriage return, vertical tab and form feed are skipped. */
  lemma TokensOfOne(c: char)
    ensures Tokens([c]) ==
      if c == ' ' || c == '\t' || c == '\n' || c == '\r' || c == '\U{0B}' || c == '\U{0C}' then [] else [c]
  {
    assert [c][1..] == [];
  }

  predicate IsBlank(w: seq<char>) {
    forall i :: 0 <= i < |w| ==> w[i] in {' ', '\t', '\n', '\r', '\U{0B}', '\U{0C}'}
  }

  lemma {:induction false} TokensOfBlank(w: seq<char>)
    requires IsBlank(w)
    ensures Tokens(w) == []
  {
    if w != [] {
      TokensOfOne(w[0]);
      TokensOfBlank(w[1..]);
    }
  }

  /** White space may be put in or left out anywhere. */
  lemma BlanksDoNotMatter(a: seq<char>, w: seq<char>, b: seq<char>)
    requires IsBlank(w)
    ensures Tokens(a + w + b) == Tokens(a + b)
  {
    TokensAppend(a + w, b);
    TokensAppend(a, w);
    TokensAppend(a, b);
    TokensOfBlank(w);
  }

  /** A character is an expression by itself exactly if it is one of the ten digits. */
  lemma DigitsAreTen(c: char)
    ensures ParseE([c], 0) == Returned(1) <==> c in {'0', '1', '2', '3', '4', '5', '6', '7', '8', '9'}
  {
    UnfoldE([c], 0);
    UnfoldT([c], 0);
    UnfoldS([c], 0);
    if c == '(' {
      UnfoldE([c], 1);
      UnfoldT([c], 1);
      UnfoldS([c], 1);
    }
  }

  /** Two digits with a character between them are an expression exactly if it is one of the
      four operators. */
  lemma OperatorsAreFour(c: char)
    ensures ParseE(['1', c, '2'], 0) == Returned(3) <==> c in {'+', '-', '*', '/'}
  {
    var ts := ['1', c, '2'];
    UnfoldE(ts, 0);
    UnfoldT(ts, 0);
    UnfoldS(ts, 0);
    UnfoldE(ts, 2);
    UnfoldT(ts, 2);
    UnfoldS(ts, 2);
  }

  // ----- the program

  datatype Signal = Normal | Exception(what: string)

  function Told(r: Outcome): (signal: Signal)
    ensures signal.Normal? <==> r.Returned?
  {
    if r.Returned? then Normal else Exception(r.what)
  }

  /** The parser object; `output` is what the callback has received. */
  class Parser {
    var next: char
    const input: seq<char>
    var pos: nat
    var output: seq<char>

    constructor (input: seq<char>)
      ensures this.input == input && pos == 0 && output == []
    {
      this.input, pos, output, next := input, 0, [], '\0';
    }

    /** The first k tokens have been handed to the callback, token k is the lookahead, and
        everything after it is still to be read. */
    ghost predicate At(k: nat)
      reads this
    {
      var ts := Tokens(input);
      && pos <= |input| && k <= |ts|
      && next == Peek(ts, k) && output == ts[..k]
      && Tokens(input[pos..]) == if k < |ts| then ts[k + 1..] else []
    }

    lemma Lookahead(k: nat)
      requires At(k)
      ensures k <= |Tokens(input)| && next == Peek(Tokens(input), k)
      ensures IsSum(next) || IsProduct(next) ==> k < |Tokens(input)| && Tokens(input)[k] == next
      ensures IsSum(next) <==> next == '+' || next == '-'
      ensures IsProduct(next) <==> next == '*' || next == '/'
    {
    }

    method Pull() returns (c: char)
      requires pos <= |input|
      modifies this`pos
      ensures if old(pos) < |input| then c == input[old(pos)] && pos == old(pos) + 1
              else c == END && pos == old(pos)
    {
      if pos < |input| {
        c, pos := input[pos], pos + 1;
      } else {
        c := END;
      }
    }

    /** Moves the lookahead to the next token. */
    method Scan()
      requires pos <= |input|
      modifies this`pos, this`next
      ensures old(pos) <= pos <= |input|
      ensures var rest := Tokens(input[old(pos)..]);
        next == Peek(rest, 0) && Tokens(input[pos..]) == if rest == [] then [] else rest[1..]
    {
      ghost var rest := Tokens(input[pos..]);
      next := Pull();
      while IsSpace(next)
        invariant old(pos) <= pos <= |input|
        invariant if IsSpace(next) then Tokens(input[pos..]) == rest
                  else next == Peek(rest, 0) && Tokens(input[pos..]) == if rest == [] then [] else rest[1..]
        decreases |input| - pos, IsSpace(next)
      {
        next := Pull();
      }
    }

    /** Hands the lookahead to the callback and scans on. */
    method Accept(ghost k: nat)
      requires At(k) && k < |Tokens(input)|
      modifies this
      ensures At(k + 1)
    {
      output := output + [next];
      Scan();
    }

    /** The parser has come to where an outcome ends, and a caller has been told it. */
    ghost predicate Ended(r: Outcome, signal: Signal)
      reads this
    {
      At(r.end) && signal == Told(r)
    }

    /** The loop of E has come to token j, and what is left of E starts there. */
    ghost predicate InE(k: nat, j: nat) {
      var ts := Tokens(input);
      k < j <= |ts| && ParseE(ts, k) == RestE(ts, j)
    }

    lemma FirstTerm(k: nat, signal: Signal)
      requires k <= |Tokens(input)| && Ended(ParseT(Tokens(input), k), signal)
      ensures if signal.Exception? then Ended(ParseE(Tokens(input), k), signal)
              else (var j := ParseT(Tokens(input), k).end; InE(k, j) && At(j))
    {
      hide Tokens, ParseE, ParseT, RestE, At;
      UnfoldE(Tokens(input), k);
    }

    lemma NextTerm(k: nat, j: nat, signal: Signal)
      requires InE(k, j) && j < |Tokens(input)| && IsSum(Tokens(input)[j])
      requires Ended(ParseT(Tokens(input), j + 1), signal)
      ensures if signal.Exception? then Ended(ParseE(Tokens(input), k), signal)
              else (var n := ParseT(Tokens(input), j + 1).end; j < n && InE(k, n) && At(n))
    {
      hide Tokens, ParseE, ParseT, At;
      UnfoldE(Tokens(input), j + 1);
    }

    lemma NoMoreTerms(k: nat, j: nat)
      requires InE(k, j) && At(j) && !IsSum(Peek(Tokens(input), j))
      ensures Ended(ParseE(Tokens(input), k), Normal)
    {
      hide Tokens, ParseE;
    }

    /** The loop of T has come to token j, and what is left of T starts there. */
    ghost predicate InT(k: nat, j: nat) {
      var ts := Tokens(input);
      k < j <= |ts| && ParseT(ts, k) == RestT(ts, j)
    }

    lemma FirstFactor(k: nat, signal: Signal)
      requires k <= |Tokens(input)| && Ended(ParseS(Tokens(input), k), signal)
      ensures if signal.Exception? then Ended(ParseT(Tokens(input), k), signal)
              else (var j := ParseS(Tokens(input), k).end; InT(k, j) && At(j))
    {
      hide Tokens, ParseT, ParseS, RestT, At;
      UnfoldT(Tokens(input), k);
    }

    lemma NextFactor(k: nat, j: nat, signal: Signal)
      requires InT(k, j) && j < |Tokens(input)| && IsProduct(Tokens(input)[j])
      requires Ended(ParseS(Tokens(input), j + 1), signal)
      ensures if signal.Exception? then Ended(ParseT(Tokens(input), k), signal)
              else (var n := ParseS(Tokens(input), j + 1).end; j < n && InT(k, n) && At(n))
    {
      hide Tokens, ParseT, ParseS, At;
      UnfoldT(Tokens(input), j + 1);
    }

    lemma NoMoreFactors(k: nat, j: nat)
      requires InT(k, j) && At(j) && !IsProduct(Peek(Tokens(input), j))
      ensures Ended(ParseT(Tokens(input), k), Normal)
    {
      hide Tokens, ParseT;
    }

    method E(ghost k: nat) returns (signal: Signal)
      requires At(k)
      modifies this
      ensures Ended(ParseE(Tokens(input), k), signal)
      decreases |Tokens(input)| - k, 2
    {
      hide *;
      signal := T(k);
      FirstTerm(k, signal);
      if signal.Exception? {
        return;
      }
      ghost var j := ParseT(Tokens(input), k).end;
      while next == '+' || next == '-'
        invariant At(j) && InE(k, j)
        decreases |Tokens(input)| - j
      {
        Lookahead(j);
        Accept(j);
        signal := T(j + 1);
        NextTerm(k, j, signal);
        if signal.Exception? {
          return;
        }
        j := ParseT(Tokens(input), j + 1).end;
      }
      Lookahead(j);
      NoMoreTerms(k, j);
      signal := Normal;
    }

    method T(ghost k: nat) returns (signal: Signal)
      requires At(k)
      modifies this
      ensures Ended(ParseT(Tokens(input), k), signal)
      decreases |Tokens(input)| - k, 1
    {
      hide *;
      signal := S(k);
      FirstFactor(k, signal);
      if signal.Exception? {
        return;
      }
      ghost var j := ParseS(Tokens(input), k).end;
      while next == '*' || next == '/'
        invariant At(j) && InT(k, j)
        decreases |Tokens(input)| - j
      {
        Lookahead(j);
        Accept(j);
        signal := S(j + 1);
        NextFactor(k, j, signal);
        if signal.Exception? {
          return;
        }
        j := ParseS(Tokens(input), j + 1).end;
      }
      Lookahead(j);
      NoMoreFactors(k, j);
      signal := Normal;
    }

    method S(ghost k: nat) returns (signal: Signal)
      requires At(k)
      modifies this
      ensures Ended(ParseS(Tokens(input), k), signal)
      decreases |Tokens(input)| - k, 0
    {
      hide Tokens, ParseE, ParseT, ParseS;
      ghost var ts := Tokens(input);
      UnfoldS(ts, k);
      if IsDigit(next) {
        Accept(k);
        return Normal;
      } else if next == '(' {
        Accept(k);
        ghost var r := ParseE(ts, k + 1);
        signal := E(k + 1);
        if signal.Exception? {
          return;
        }
        if next == ')' {
          Accept(r.end);
          return Normal;
        } else {
          return Exception("1");
        }
      } else {
        return Exception("2");
      }
    }

    /** Parses a fresh input: emits the tokens of the sentence it starts with and returns
        normally, or emits a prefix of a sentence and throws. */
    method Run() returns (signal: Signal)
      requires pos == 0 && output == []
      modifies this
      ensures var ts := Tokens(input);
        && (signal.Normal? <==> ParseE(ts, 0).Returned?)
        && output == ts[..ParseE(ts, 0).end]
      ensures signal.Normal? <==> exists w :: Accepted(Tokens(input), w)
      ensures forall w :: Accepted(Tokens(input), w) ==> output == w
      ensures exists w :: Sentence(w) && output <= w
      ensures forall a, w, b :: input == a + w + b && IsBlank(w) ==>
        var (ts, r) := (Tokens(a + b), ParseE(Tokens(a + b), 0)); output == ts[..r.end] && signal == Told(r)
    {
      ghost var ts := Tokens(input);
      assert input[0..] == input;
      Scan();
      assert At(0);
      signal := E(0);
      ReturnsExactlyOnSentences(input);
      EmittedIsAPrefixOfASentence(input);
      forall a, w, b | input == a + w + b && IsBlank(w) ensures Tokens(a + b) == ts {
        BlanksDoNotMatter(a, w, b);
      }
    }
  }
}
