/** The fragment of SQL that List generates: its text, a lexer and parser for that text,
    and the round trip between the two. */
module SqlText {
  import opened Base

  datatype Op = Eq | Ne | ILikeOp

  /** A WHERE condition. `param` is the number after the dollar sign. */
  datatype Cond =
    | Cmp(column: string, op: Op, param: nat)
    | And(left: Cond, right: Cond)
    | Or(left: Cond, right: Cond)

  datatype Query =
    | Count(where: Cond)
    | Page(where: Cond, orderBy: string, descending: bool, limitParam: nat, offsetParam: nat)

  datatype Token =
    | Word(text: string)
    | Param(n: nat)
    | OpSign(op: Op)
    | LParen | RParen | Star | KwAnd | KwOr
    | Bad(c: char)

  // ----- decimal numbers -----

  const DIGITS := "0123456789"

  predicate IsDigit(c: char) {
    '0' <= c <= '9'
  }

  function DigitValue(c: char): nat
    requires IsDigit(c)
  {
    c as int - '0' as int
  }

  function Itoa(n: nat): (s: string)
    ensures |s| > 0 && forall i | 0 <= i < |s| :: IsDigit(s[i])
  {
    if n < 10 then [DIGITS[n]] else Itoa(n / 10) + [DIGITS[n % 10]]
  }

  function Atoi(s: string): nat
    requires forall i | 0 <= i < |s| :: IsDigit(s[i])
  {
    if s == "" then 0 else Atoi(s[..|s| - 1]) * 10 + DigitValue(s[|s| - 1])
  }

  lemma {:induction false} AtoiItoa(n: nat)
    ensures Atoi(Itoa(n)) == n
  {
    var s := Itoa(n);
    if n < 10 {
      assert s[..|s| - 1] == "";
    } else {
      AtoiItoa(n / 10);
      assert s[..|s| - 1] == Itoa(n / 10);
    }
  }

  /** Numbers are written in decimal. */
  lemma ItoaIsDecimal(n: nat)
    ensures n < 10 ==> Itoa(n) == [['0', '1', '2', '3', '4', '5', '6', '7', '8', '9'][n]]
    ensures n >= 10 ==> Itoa(n) == Itoa(n / 10) + Itoa(n % 10)
  {
  }

  // ----- tokens and their text -----

  predicate IsLetter(c: char) {
    'a' <= c <= 'z' || 'A' <= c <= 'Z' || c == '_'
  }

  predicate IsSpace(c: char) {
    c == ' ' || c == '\n' || c == '\t'
  }

  predicate IsWord(s: string) {
    s != "" && forall c | c in s :: IsLetter(c)
  }

  /** Keywords are written in capitals; every other word is a name. */
  function WordToken(w: string): Token {
    if w == "AND" then KwAnd
    else if w == "OR" then KwOr
    else if w == "ILIKE" then OpSign(ILikeOp)
    else Word(w)
  }

  predicate IsName(s: string) {
    IsWord(s) && WordToken(s) == Word(s)
  }

  predicate Printable(t: Token) {
    match t
    case Word(w) => IsName(w)
    case Bad(_) => false
    case _ => true
  }

  function TokenText(t: Token): string {
    match t
    case Word(w) => w
    case Param(n) => "$" + Itoa(n)
    case OpSign(Eq) => "="
    case OpSign(Ne) => "!="
    case OpSign(ILikeOp) => "ILIKE"
    case LParen => "("
    case RParen => ")"
    case Star => "*"
    case KwAnd => "AND"
    case KwOr => "OR"
    case Bad(c) => [c]
  }

  function Gap(left: Token, right: Token): string {
    if left.LParen? || right.RParen? then "" else " "
  }

  /** Tokens with one space between them, none inside a parenthesis. */
  function Render(ts: seq<Token>): string {
    if ts == [] then ""
    else if |ts| == 1 then TokenText(ts[0])
    else TokenText(ts[0]) + Gap(ts[0], ts[1]) + Render(ts[1..])
  }

  // ----- lexer -----

  function Span(s: string, p: char -> bool): (n: nat)
    ensures n <= |s|
    ensures forall i | 0 <= i < n :: p(s[i])
  {
    if s == "" || !p(s[0]) then 0 else 1 + Span(s[1..], p)
  }

  /** The tokens (one, or none for white space) at the front of a text, and the characters they take. */
  function FirstToken(s: string): (r: (seq<Token>, nat))
    requires s != ""
    ensures 1 <= r.1 <= |s|
  {
    if IsSpace(s[0]) then ([], 1)
    else if s[0] == '(' then ([LParen], 1)
    else if s[0] == ')' then ([RParen], 1)
    else if s[0] == '*' then ([Star], 1)
    else if s[0] == '=' then ([OpSign(Eq)], 1)
    else if s[0] == '!' && |s| > 1 && s[1] == '=' then ([OpSign(Ne)], 2)
    else if s[0] == '$' && Span(s[1..], IsDigit) > 0 then
      var n := Span(s[1..], IsDigit);
      ([Param(Atoi(s[1..][..n]))], n + 1)
    else if IsLetter(s[0]) then
      var n := Span(s, IsLetter);
      ([WordToken(s[..n])], n)
    else ([Bad(s[0])], 1)
  }

  function Lex(s: string): seq<Token>
    decreases |s|, 1
  {
    if s == "" then [] else LexMore(s)
  }

  function LexMore(s: string): seq<Token>
    requires s != ""
    decreases |s|, 0
  {
    var (tokens, n) := FirstToken(s);
    tokens + Lex(s[n..])
  }

  lemma {:induction false} SpanStops(w: string, rest: string, p: char -> bool)
    requires forall i | 0 <= i < |w| :: p(w[i])
    requires rest == "" || !p(rest[0])
    ensures Span(w + rest, p) == |w|
  {
    if w == "" {
      assert w + rest == rest;
    } else {
      assert (w + rest)[1..] == w[1..] + rest;
      SpanStops(w[1..], rest, p);
    }
  }

  predicate StartsAtDelimiter(rest: string) {
    rest == "" || IsSpace(rest[0]) || rest[0] in "()*"
  }

  lemma LexWord(w: string, rest: string)
    requires IsWord(w)
    requires rest == "" || !IsLetter(rest[0])
    ensures Lex(w + rest) == [WordToken(w)] + Lex(rest)
  {
    SpanStops(w, rest, IsLetter);
    assert (w + rest)[0] == w[0];
    assert (w + rest)[..|w|] == w && (w + rest)[|w|..] == rest;
  }

  lemma LexParam(k: nat, rest: string)
    requires rest == "" || !IsDigit(rest[0])
    ensures Lex("$" + Itoa(k) + rest) == [Param(k)] + Lex(rest)
  {
    var d := Itoa(k);
    var s := "$" + d + rest;
    assert s[1..] == d + rest;
    SpanStops(d, rest, IsDigit);
    assert (d + rest)[..|d|] == d && (d + rest)[|d|..] == rest;
    AtoiItoa(k);
  }

  lemma LexToken(t: Token, rest: string)
    requires Printable(t)
    requires t.LParen? || t.RParen? || t.Star? || StartsAtDelimiter(rest)
    ensures Lex(TokenText(t) + rest) == [t] + Lex(rest)
  {
    var s := TokenText(t) + rest;
    match t
    case Word(w) => LexWord(w, rest);
    case Param(k) => LexParam(k, rest);
    case OpSign(ILikeOp) => LexWord("ILIKE", rest);
    case OpSign(Ne) => assert s[2..] == rest;
    case KwAnd => LexWord("AND", rest);
    case KwOr => LexWord("OR", rest);
    case Bad(_) =>
    case _ => assert s[1..] == rest;
  }

  lemma RenderCons(t: Token, ts: seq<Token>)
    requires ts != []
    ensures Render([t] + ts) == TokenText(t) + (Gap(t, ts[0]) + Render(ts))
  {
    assert ([t] + ts)[1..] == ts;
    Associate(TokenText(t), Gap(t, ts[0]), Render(ts));
  }

  lemma Associate(a: string, b: string, c: string)
    ensures a + b + c == a + (b + c)
  {
  }

  lemma RenderRParen(ts: seq<Token>)
    requires ts != [] && ts[0].RParen?
    ensures Render(ts) != "" && Render(ts)[0] == ')'
  {
    assert TokenText(ts[0]) == ")";
  }

  lemma LexGap(t: Token, ts: seq<Token>)
    requires ts != []
    requires ts[0].RParen? ==> Render(ts) != "" && Render(ts)[0] == ')'
    ensures Lex(Gap(t, ts[0]) + Render(ts)) == Lex(Render(ts))
    ensures t.LParen? || StartsAtDelimiter(Gap(t, ts[0]) + Render(ts))
  {
    if t.LParen? || ts[0].RParen? {
      NoSpace(Render(ts));
    } else {
      OneSpace(Render(ts));
    }
  }

  lemma NoSpace(tail: string)
    ensures "" + tail == tail
  {
  }

  lemma OneSpace(tail: string)
    ensures Lex(" " + tail) == Lex(tail) && StartsAtDelimiter(" " + tail)
  {
    assert (" " + tail)[1..] == tail;
  }

  /** Lexing undoes rendering. */
  lemma {:induction false} LexRender(ts: seq<Token>)
    requires forall i | 0 <= i < |ts| :: Printable(ts[i])
    ensures Lex(Render(ts)) == ts
  {
    if |ts| == 1 {
      LexToken(ts[0], "");
      assert TokenText(ts[0]) + "" == TokenText(ts[0]);
    } else if ts != [] {
      var t, rest := ts[0], ts[1..];
      LexRender(rest);
      RenderCons(t, rest);
      if rest[0].RParen? {
        RenderRParen(rest);
      }
      LexGap(t, rest);
      LexToken(t, Gap(t, rest[0]) + Render(rest));
      assert ts == [t] + rest;
    }
  }

  /** A space separates tokens, so text can be lexed piecewise around it. */
  lemma {:induction false} LexSplit(a: string, b: string)
    requires b == "" || IsSpace(b[0])
    ensures Lex(a + b) == Lex(a) + Lex(b)
    decreases |a|
  {
    if a == "" {
      assert a + b == b;
    } else {
      var t, n := LexFront(a, b);
      LexSplit(a[n..], b);
      Chained(Lex(a + b), t, Lex(a[n..] + b), Lex(a[n..]), Lex(b), Lex(a));
    }
  }

  lemma Chained<T>(whole: seq<T>, t: seq<T>, tail: seq<T>, x: seq<T>, y: seq<T>, front: seq<T>)
    requires whole == t + tail && tail == x + y && front == t + x
    ensures whole == front + y
  {
  }

  lemma LexFront(a: string, b: string) returns (t: seq<Token>, n: nat)
    requires a != ""
    requires b == "" || IsSpace(b[0])
    ensures 1 <= n <= |a|
    ensures Lex(a) == t + Lex(a[n..])
    ensures Lex(a + b) == t + Lex(a[n..] + b)
  {
    FirstTokenStays(a, b);
    t, n := FirstToken(a).0, FirstToken(a).1;
    assert (a + b)[n..] == a[n..] + b;
  }

  lemma FirstTokenStays(a: string, b: string)
    requires a != ""
    requires b == "" || IsSpace(b[0])
    ensures FirstToken(a + b) == FirstToken(a)
  {
    assert (a + b)[0] == a[0] && (a + b)[1..] == a[1..] + b;
    if a[0] == '$' {
      SpanJoin(a[1..], b, IsDigit);
      var n := Span(a[1..], IsDigit);
      assert (a[1..] + b)[..n] == a[1..][..n];
    } else if IsLetter(a[0]) {
      SpanJoin(a, b, IsLetter);
      var m := Span(a, IsLetter);
      assert (a + b)[..m] == a[..m];
    }
  }

  lemma {:induction false} SpanJoin(a: string, b: string, p: char -> bool)
    requires b == "" || !p(b[0])
    ensures Span(a + b, p) == Span(a, p)
  {
    if a == "" {
      assert a + b == b;
    } else {
      assert (a + b)[1..] == a[1..] + b;
      SpanJoin(a[1..], b, p);
    }
  }

  lemma {:induction false} RenderAppend(a: seq<Token>, r: seq<Token>)
    requires a != [] && r != []
    ensures Render(a + r) == Render(a) + (Gap(a[|a| - 1], r[0]) + Render(r))
  {
    assert a == [a[0]] + a[1..];
    if |a| == 1 {
      RenderCons(a[0], r);
    } else {
      var tail := a[1..];
      var added := Gap(a[|a| - 1], r[0]) + Render(r);
      assert tail[|tail| - 1] == a[|a| - 1];
      RenderAppend(tail, r);
      RenderAppendCons(a[0], tail, r, added);
    }
  }

  lemma RenderAppendCons(t: Token, tail: seq<Token>, r: seq<Token>, added: string)
    requires tail != []
    requires Render(tail + r) == Render(tail) + added
    ensures Render([t] + tail + r) == Render([t] + tail) + added
  {
    RenderCons(t, tail);
    RenderCons(t, tail + r);
    Regrouped(t, tail, r);
    Grouped(TokenText(t), Gap(t, tail[0]), Render(tail), added,
            Render(tail + r), Render([t] + tail), Render([t] + tail + r));
  }

  lemma Regrouped(t: Token, tail: seq<Token>, r: seq<Token>)
    requires tail != []
    ensures [t] + tail + r == [t] + (tail + r) && (tail + r)[0] == tail[0]
  {
  }

  lemma Grouped<T>(w: seq<T>, x: seq<T>, y: seq<T>, z: seq<T>, yz: seq<T>, front: seq<T>, whole: seq<T>)
    requires yz == y + z && front == w + (x + y) && whole == w + (x + yz)
    ensures whole == front + z
  {
  }

  /** Texts joined by a keyword are the text of the joined tokens. */
  lemma RenderJoin(a: seq<Token>, k: Token, b: seq<Token>)
    requires a != [] && b != [] && (k.KwAnd? || k.KwOr?)
    requires !a[|a| - 1].LParen? && !b[0].RParen?
    ensures Render(a + [k] + b) == Render(a) + (" " + (TokenText(k) + (" " + Render(b))))
  {
    RenderAppend(a, [k] + b);
    RenderCons(k, b);
    AppendInside(a, k, b);
    assert Gap(a[|a| - 1], k) == " " && Gap(k, b[0]) == " ";
  }

  lemma AppendInside<T>(a: seq<T>, k: T, b: seq<T>)
    ensures a + [k] + b == a + ([k] + b) && ([k] + b)[0] == k
  {
  }

  // ----- printing and parsing conditions -----

  predicate WellNamed(c: Cond) {
    match c
    case Cmp(column, _, _) => IsName(column)
    case And(l, r) => WellNamed(l) && WellNamed(r)
    case Or(l, r) => WellNamed(l) && WellNamed(r)
  }

  /** The least parenthesised form of a condition: OR binds weaker than AND, and a condition that
      does not fit its place is parenthesised. */
  function PrimTokens(c: Cond): seq<Token>
    decreases c, if c.Cmp? then 0 else 3
  {
    if c.Cmp? then [Word(c.column), OpSign(c.op), Param(c.param)] else [LParen] + OrTokens(c) + [RParen]
  }

  function AndTokens(c: Cond): seq<Token>
    decreases c, if c.Or? then 4 else 1
  {
    if c.And? then PrimTokens(c.left) + [KwAnd] + AndTokens(c.right) else PrimTokens(c)
  }

  function OrTokens(c: Cond): seq<Token>
    decreases c, 2
  {
    if c.Or? then AndTokens(c.left) + [KwOr] + OrTokens(c.right)
    else if c.And? then AndTokens(c)
    else PrimTokens(c)
  }

  function CondText(c: Cond): string {
    Render(OrTokens(c))
  }

  type Parsed = Option<(Cond, seq<Token>)>

  function ParsePrim(ts: seq<Token>): (r: Parsed)
    ensures r.Some? ==> |r.value.1| < |ts|
    decreases |ts|, 0
  {
    if ts != [] && ts[0].LParen? then
      match ParseOr(ts[1..])
      case None => None
      case Some((c, rest)) => if rest != [] && rest[0].RParen? then Some((c, rest[1..])) else None
    else if |ts| >= 3 && ts[0].Word? && ts[1].OpSign? && ts[2].Param? then
      Some((Cmp(ts[0].text, ts[1].op, ts[2].n), ts[3..]))
    else None
  }

  function ParseAnd(ts: seq<Token>): (r: Parsed)
    ensures r.Some? ==> |r.value.1| < |ts|
    decreases |ts|, 1
  {
    match ParsePrim(ts)
    case None => None
    case Some((c, rest)) =>
      if rest != [] && rest[0].KwAnd? then
        match ParseAnd(rest[1..])
        case None => None
        case Some((d, rest')) => Some((And(c, d), rest'))
      else Some((c, rest))
  }

  function ParseOr(ts: seq<Token>): (r: Parsed)
    ensures r.Some? ==> |r.value.1| < |ts|
    decreases |ts|, 2
  {
    match ParseAnd(ts)
    case None => None
    case Some((c, rest)) =>
      if rest != [] && rest[0].KwOr? then
        match ParseOr(rest[1..])
        case None => None
        case Some((d, rest')) => Some((Or(c, d), rest'))
      else Some((c, rest))
  }

  lemma {:induction false} ParsePrimTokens(c: Cond, rest: seq<Token>)
    ensures ParsePrim(PrimTokens(c) + rest) == Some((c, rest))
    decreases c, if c.Cmp? then 0 else 3
  {
    var ts := PrimTokens(c) + rest;
    if c.Cmp? {
      assert ts[3..] == rest;
    } else {
      assert ts[1..] == OrTokens(c) + ([RParen] + rest);
      ParseOrTokens(c, [RParen] + rest);
      assert ([RParen] + rest)[1..] == rest;
    }
  }

  lemma {:induction false} ParseAndTokens(c: Cond, rest: seq<Token>)
    requires rest == [] || !rest[0].KwAnd?
    ensures ParseAnd(AndTokens(c) + rest) == Some((c, rest))
    decreases c, if c.Or? then 4 else 1
  {
    if c.And? {
      var after := [KwAnd] + (AndTokens(c.right) + rest);
      assert AndTokens(c) + rest == PrimTokens(c.left) + after;
      ParsePrimTokens(c.left, after);
      ParseAndTokens(c.right, rest);
      assert after[1..] == AndTokens(c.right) + rest;
    } else {
      ParsePrimTokens(c, rest);
    }
  }

  lemma Associated<T>(a: seq<T>, k: T, b: seq<T>, rest: seq<T>)
    ensures a + [k] + b + rest == a + ([k] + (b + rest))
  {
  }

  lemma ParseOrStep(ts: seq<Token>, left: Cond, tail: seq<Token>, right: Cond, rest: seq<Token>)
    requires ParseAnd(ts) == Some((left, [KwOr] + tail)) && ParseOr(tail) == Some((right, rest))
    ensures ParseOr(ts) == Some((Or(left, right), rest))
  {
    assert ([KwOr] + tail)[1..] == tail;
  }

  lemma ParseOrAlone(ts: seq<Token>, c: Cond, rest: seq<Token>)
    requires ParseAnd(ts) == Some((c, rest)) && (rest == [] || !rest[0].KwOr?)
    ensures ParseOr(ts) == Some((c, rest))
  {
  }

  lemma {:induction false} ParseOrTokens(c: Cond, rest: seq<Token>)
    requires rest == [] || !(rest[0].KwAnd? || rest[0].KwOr?)
    ensures ParseOr(OrTokens(c) + rest) == Some((c, rest))
    decreases c, 2
  {
    if c.Or? {
      var tail := OrTokens(c.right) + rest;
      Associated(AndTokens(c.left), KwOr, OrTokens(c.right), rest);
      ParseAndTokens(c.left, [KwOr] + tail);
      ParseOrTokens(c.right, rest);
      ParseOrStep(OrTokens(c) + rest, c.left, tail, c.right, rest);
    } else {
      assert OrTokens(c) == AndTokens(c);
      ParseAndTokens(c, rest);
      ParseOrAlone(OrTokens(c) + rest, c, rest);
    }
  }

  lemma {:induction false} TokensPrintable(c: Cond)
    requires WellNamed(c)
    ensures forall i | 0 <= i < |PrimTokens(c)| :: Printable(PrimTokens(c)[i])
    ensures forall i | 0 <= i < |AndTokens(c)| :: Printable(AndTokens(c)[i])
    ensures forall i | 0 <= i < |OrTokens(c)| :: Printable(OrTokens(c)[i])
  {
    if !c.Cmp? {
      TokensPrintable(c.left);
      TokensPrintable(c.right);
    }
  }

  function ParseCond(text: string): Option<Cond> {
    match ParseOr(Lex(text))
    case Some((c, rest)) => if rest == [] then Some(c) else None
    case None => None
  }

  /** Every condition survives printing, lexing and parsing, with its grouping. */
  lemma CondRoundTrip(c: Cond)
    requires WellNamed(c)
    ensures ParseCond(CondText(c)) == Some(c)
  {
    TokensPrintable(c);
    LexRender(OrTokens(c));
    ParseOrTokens(c, []);
    assert OrTokens(c) + [] == OrTokens(c);
  }

  // ----- the two statements -----

  /** A token and the white space before it. */
  datatype Piece = Piece(space: string, token: Token)

  function Spaced(ps: seq<Piece>): string {
    if ps == [] then "" else ps[0].space + (TokenText(ps[0].token) + Spaced(ps[1..]))
  }

  function Tokens(ps: seq<Piece>): seq<Token> {
    seq(|ps|, i requires 0 <= i < |ps| => ps[i].token)
  }

  predicate IsBracket(t: Token) {
    t.LParen? || t.RParen? || t.Star?
  }

  predicate WellSpaced(ps: seq<Piece>) {
    && (forall i | 0 <= i < |ps| ::
          Printable(ps[i].token) && forall j | 0 <= j < |ps[i].space| :: IsSpace(ps[i].space[j]))
    && (forall i | 0 < i < |ps| :: ps[i].space != "" || IsBracket(ps[i].token))
  }

  lemma {:induction false} LexSpaces(space: string, rest: string)
    requires forall i | 0 <= i < |space| :: IsSpace(space[i])
    ensures Lex(space + rest) == Lex(rest)
  {
    if space == "" {
      assert space + rest == rest;
    } else {
      LexSpaces(space[1..], rest);
      assert (space + rest)[1..] == space[1..] + rest;
    }
  }

  lemma {:induction false} LexSpaced(ps: seq<Piece>, rest: string)
    requires WellSpaced(ps)
    requires rest == "" || IsSpace(rest[0])
    ensures Lex(Spaced(ps) + rest) == Tokens(ps) + Lex(rest)
  {
    if ps == [] {
      assert Spaced(ps) + rest == rest;
    } else {
      var p, tail := ps[0], Spaced(ps[1..]) + rest;
      LexSpaced(ps[1..], rest);
      NextStartsAtDelimiter(ps, rest);
      LexPiece(p, tail);
      SpacedCons(p.space, TokenText(p.token), Spaced(ps[1..]), rest);
      TokensCons(ps);
      Chained(Lex(Spaced(ps) + rest), [p.token], Lex(tail), Tokens(ps[1..]), Lex(rest), Tokens(ps));
    }
  }

  lemma SpacedCons(space: string, text: string, tail: string, rest: string)
    ensures space + (text + tail) + rest == space + (text + (tail + rest))
  {
  }

  lemma TokensCons(ps: seq<Piece>)
    requires ps != []
    ensures Tokens(ps) == [ps[0].token] + Tokens(ps[1..])
  {
  }

  lemma NextStartsAtDelimiter(ps: seq<Piece>, rest: string)
    requires WellSpaced(ps) && ps != []
    requires rest == "" || IsSpace(rest[0])
    ensures StartsAtDelimiter(Spaced(ps[1..]) + rest)
  {
    if |ps| > 1 {
      assert ps[1..][0] == ps[1];
      if ps[1].space == "" {
        assert (Spaced(ps[1..]) + rest)[0] == TokenText(ps[1].token)[0];
      } else {
        assert (Spaced(ps[1..]) + rest)[0] == ps[1].space[0];
      }
    } else {
      assert Spaced(ps[1..]) + rest == rest;
    }
  }

  lemma LexPiece(p: Piece, rest: string)
    requires Printable(p.token) && forall j | 0 <= j < |p.space| :: IsSpace(p.space[j])
    requires StartsAtDelimiter(rest)
    ensures Lex(p.space + (TokenText(p.token) + rest)) == [p.token] + Lex(rest)
  {
    LexSpaces(p.space, TokenText(p.token) + rest);
    LexToken(p.token, rest);
  }

  const COUNT_HEAD := [
    Piece("", Word("SELECT")), Piece(" ", Word("COUNT")), Piece("", LParen), Piece("", Star), Piece("", RParen),
    Piece(" ", Word("FROM")), Piece(" ", Word("users")), Piece(" ", Word("WHERE"))]

  const PAGE_HEAD := [
    Piece("\n\t\t", Word("SELECT")), Piece(" ", Star), Piece(" ", Word("FROM")), Piece(" ", Word("users")),
    Piece(" \n\t\t", Word("WHERE"))]

  function PageTail(limitParam: nat, offsetParam: nat): seq<Piece> {
    [Piece(" \n\t\t", Word("ORDER")), Piece(" ", Word("BY")), Piece(" ", Word("created_at")), Piece(" ", Word("DESC")),
     Piece(" \n\t\t", Word("LIMIT")), Piece(" ", Param(limitParam)),
     Piece(" ", Word("OFFSET")), Piece(" ", Param(offsetParam))]
  }

  /** `SELECT COUNT(*) FROM users WHERE <where>`. */
  function CountText(where: string): string {
    Spaced(COUNT_HEAD) + (" " + where)
  }

  /** `SELECT * FROM users WHERE <where> ORDER BY created_at DESC LIMIT $l OFFSET $o`, with its line breaks. */
  function PageText(where: string, limitParam: nat, offsetParam: nat): string {
    Spaced(PAGE_HEAD) + (" " + (where + Spaced(PageTail(limitParam, offsetParam))))
  }

  /** One more piece in front, whose white space and text read `glued`. */
  lemma Glue(ps: seq<Piece>, i: nat, glued: string, tail: string, rest: string)
    requires i < |ps| && Spaced(ps[i + 1..]) + rest == tail
    requires ps[i].space + TokenText(ps[i].token) == glued
    ensures Spaced(ps[i..]) + rest == glued + tail
  {
    SpacedAt(ps, i);
    Regroup(ps[i].space, TokenText(ps[i].token), Spaced(ps[i + 1..]), rest);
  }

  lemma SpacedAt(ps: seq<Piece>, i: nat)
    requires i < |ps|
    ensures Spaced(ps[i..]) == ps[i].space + (TokenText(ps[i].token) + Spaced(ps[i + 1..]))
  {
    assert ps[i..][1..] == ps[i + 1..];
  }

  lemma Regroup(a: string, b: string, c: string, d: string)
    ensures a + (b + c) + d == (a + b) + (c + d)
  {
  }

  lemma FromUsersIs(ps: seq<Piece>, rest: string)
    requires |ps| == 8 && ps[5] == Piece(" ", Word("FROM")) && ps[6] == Piece(" ", Word("users"))
    requires ps[7] == Piece(" ", Word("WHERE"))
    ensures Spaced(ps[5..]) + rest == " FROM" + (" users" + (" WHERE" + rest))
  {
    assert Spaced(ps[8..]) + rest == rest;
    Glue(ps, 7, " WHERE", rest, rest);
    Glue(ps, 6, " users", Spaced(ps[7..]) + rest, rest);
    Glue(ps, 5, " FROM", Spaced(ps[6..]) + rest, rest);
  }

  lemma StarIs(ps: seq<Piece>, rest: string, tail: string)
    requires |ps| == 8 && ps[2] == Piece("", LParen) && ps[3] == Piece("", Star) && ps[4] == Piece("", RParen)
    requires Spaced(ps[5..]) + rest == tail
    ensures Spaced(ps[2..]) + rest == "(" + ("*" + (")" + tail))
  {
    Glue(ps, 4, ")", tail, rest);
    Glue(ps, 3, "*", Spaced(ps[4..]) + rest, rest);
    Glue(ps, 2, "(", Spaced(ps[3..]) + rest, rest);
  }

  lemma SelectCountIs(ps: seq<Piece>, rest: string, tail: string)
    requires |ps| == 8 && ps[0] == Piece("", Word("SELECT")) && ps[1] == Piece(" ", Word("COUNT"))
    requires Spaced(ps[2..]) + rest == tail
    ensures Spaced(ps) + rest == "SELECT" + (" COUNT" + tail)
  {
    Glue(ps, 1, " COUNT", tail, rest);
    Glue(ps, 0, "SELECT", Spaced(ps[1..]) + rest, rest);
    assert ps[0..] == ps;
  }

  /** The count statement, word by word. */
  lemma CountTextIs(where: string)
    ensures CountText(where) ==
            "SELECT" + (" COUNT" + ("(" + ("*" + (")" + (" FROM" + (" users" + (" WHERE" + (" " + where))))))))
  {
    var ps, rest := COUNT_HEAD, " " + where;
    FromUsersIs(ps, rest);
    StarIs(ps, rest, Spaced(ps[5..]) + rest);
    SelectCountIs(ps, rest, Spaced(ps[2..]) + rest);
  }

  lemma PageHeadIs(rest: string)
    ensures Spaced(PAGE_HEAD) + rest ==
            "\n\t\tSELECT" + (" *" + (" FROM" + (" users" + (" \n\t\tWHERE" + rest))))
  {
    var ps := PAGE_HEAD;
    assert Spaced(ps[5..]) + rest == rest;
    Glue(ps, 4, " \n\t\tWHERE", rest, rest);
    Glue(ps, 3, " users", Spaced(ps[4..]) + rest, rest);
    Glue(ps, 2, " FROM", Spaced(ps[3..]) + rest, rest);
    Glue(ps, 1, " *", Spaced(ps[2..]) + rest, rest);
    Glue(ps, 0, "\n\t\tSELECT", Spaced(ps[1..]) + rest, rest);
    assert ps[0..] == ps;
  }

  lemma PageTailPieces(limitParam: nat, offsetParam: nat)
    ensures var ps := PageTail(limitParam, offsetParam);
            && |ps| == 8
            && ps[0] == Piece(" \n\t\t", Word("ORDER")) && ps[1] == Piece(" ", Word("BY"))
            && ps[2] == Piece(" ", Word("created_at")) && ps[3] == Piece(" ", Word("DESC"))
            && ps[4] == Piece(" \n\t\t", Word("LIMIT")) && ps[5] == Piece(" ", Param(limitParam))
            && ps[6] == Piece(" ", Word("OFFSET")) && ps[7] == Piece(" ", Param(offsetParam))
  {
  }

  lemma LimitTailIs(ps: seq<Piece>, limitParam: nat, offsetParam: nat)
    requires |ps| == 8 && ps[4] == Piece(" \n\t\t", Word("LIMIT")) && ps[5] == Piece(" ", Param(limitParam))
    requires ps[6] == Piece(" ", Word("OFFSET")) && ps[7] == Piece(" ", Param(offsetParam))
    ensures Spaced(ps[4..]) + "" ==
            " \n\t\tLIMIT" + (" $" + Itoa(limitParam) + (" OFFSET" + (" $" + Itoa(offsetParam) + "")))
  {
    Glue(ps, 7, " $" + Itoa(offsetParam), "", "");
    Glue(ps, 6, " OFFSET", Spaced(ps[7..]) + "", "");
    Glue(ps, 5, " $" + Itoa(limitParam), Spaced(ps[6..]) + "", "");
    Glue(ps, 4, " \n\t\tLIMIT", Spaced(ps[5..]) + "", "");
  }

  lemma DirectionTailIs(ps: seq<Piece>, tail: string)
    requires |ps| == 8 && ps[2] == Piece(" ", Word("created_at")) && ps[3] == Piece(" ", Word("DESC"))
    requires Spaced(ps[4..]) + "" == tail
    ensures Spaced(ps[2..]) + "" == " created_at" + (" DESC" + tail)
  {
    Glue(ps, 3, " DESC", tail, "");
    Glue(ps, 2, " created_at", Spaced(ps[3..]) + "", "");
  }

  lemma OrderTailIs(ps: seq<Piece>, tail: string)
    requires |ps| == 8 && ps[0] == Piece(" \n\t\t", Word("ORDER")) && ps[1] == Piece(" ", Word("BY"))
    requires Spaced(ps[2..]) + "" == tail
    ensures Spaced(ps) == " \n\t\tORDER" + (" BY" + tail)
  {
    Glue(ps, 1, " BY", tail, "");
    Glue(ps, 0, " \n\t\tORDER", Spaced(ps[1..]) + "", "");
    assert ps[0..] == ps && Spaced(ps) + "" == Spaced(ps);
  }

  /** The page statement, word by word. */
  lemma PageTextIs(where: string, limitParam: nat, offsetParam: nat)
    ensures var limit := " \n\t\tLIMIT" + (" $" + Itoa(limitParam) + (" OFFSET" + (" $" + Itoa(offsetParam) + "")));
            var order := " \n\t\tORDER" + (" BY" + (" created_at" + (" DESC" + limit)));
            PageText(where, limitParam, offsetParam) ==
            "\n\t\tSELECT" + (" *" + (" FROM" + (" users" + (" \n\t\tWHERE" + (" " + (where + order))))))
  {
    var ps := PageTail(limitParam, offsetParam);
    PageTailPieces(limitParam, offsetParam);
    LimitTailIs(ps, limitParam, offsetParam);
    DirectionTailIs(ps, Spaced(ps[4..]) + "");
    OrderTailIs(ps, Spaced(ps[2..]) + "");
    PageHeadIs(" " + (where + Spaced(ps)));
  }

  lemma LexHead(ps: seq<Piece>, rest: string)
    requires WellSpaced(ps)
    ensures Lex(Spaced(ps) + (" " + rest)) == Tokens(ps) + Lex(rest)
  {
    LexSpaced(ps, " " + rest);
    LexSpaces(" ", rest);
  }

  lemma LexTail(where: string, ps: seq<Piece>)
    requires WellSpaced(ps) && ps != [] && ps[0].space != ""
    ensures Lex(where + Spaced(ps)) == Lex(where) + Tokens(ps)
  {
    LexSplit(where, Spaced(ps));
    LexSpaced(ps, "");
    assert Spaced(ps) + "" == Spaced(ps);
  }

  lemma SelectNames()
    ensures IsName("SELECT") && IsName("FROM")
  {
  }

  lemma TableNames()
    ensures IsName("users") && IsName("WHERE")
  {
  }

  lemma CountHeadIsSpaced()
    ensures WellSpaced(COUNT_HEAD)
  {
    SelectNames();
    TableNames();
    assert IsName("COUNT");
  }

  lemma PageHeadIsSpaced()
    ensures WellSpaced(PAGE_HEAD)
  {
    SelectNames();
    TableNames();
  }

  lemma OrderNames()
    ensures IsName("ORDER") && IsName("BY")
  {
  }

  lemma CreatedAtIsName()
    ensures IsName("created_at")
  {
  }

  lemma LimitNames()
    ensures IsName("DESC") && IsName("LIMIT")
  {
  }

  lemma OffsetIsName()
    ensures IsName("OFFSET")
  {
  }

  lemma TailIsSpaced(limitParam: nat, offsetParam: nat)
    ensures WellSpaced(PageTail(limitParam, offsetParam))
  {
    OrderNames();
    CreatedAtIsName();
    LimitNames();
    OffsetIsName();
  }

  lemma CountTokens(where: string)
    ensures Lex(CountText(where)) == Tokens(COUNT_HEAD) + Lex(where)
  {
    CountHeadIsSpaced();
    LexHead(COUNT_HEAD, where);
  }

  lemma PageTokens(where: string, limitParam: nat, offsetParam: nat)
    ensures Lex(PageText(where, limitParam, offsetParam)) ==
            Tokens(PAGE_HEAD) + (Lex(where) + Tokens(PageTail(limitParam, offsetParam)))
  {
    var tail := PageTail(limitParam, offsetParam);
    PageHeadIsSpaced();
    TailIsSpaced(limitParam, offsetParam);
    LexHead(PAGE_HEAD, where + Spaced(tail));
    LexTail(where, tail);
  }

  // ----- parsing the two statements -----

  const COUNT_TOKENS := [
    Word("SELECT"), Word("COUNT"), LParen, Star, RParen, Word("FROM"), Word("users"), Word("WHERE")]

  const PAGE_TOKENS := [Word("SELECT"), Star, Word("FROM"), Word("users"), Word("WHERE")]

  predicate IsDirection(t: Token) {
    t == Word("DESC") || t == Word("ASC")
  }

  /** What follows the condition of a page: ORDER BY column direction LIMIT $l OFFSET $o. */
  predicate IsPageTail(ts: seq<Token>) {
    && |ts| == 8
    && ts[0] == Word("ORDER") && ts[1] == Word("BY") && ts[2].Word? && IsDirection(ts[3])
    && ts[4] == Word("LIMIT") && ts[5].Param? && ts[6] == Word("OFFSET") && ts[7].Param?
  }

  function ParseTokens(ts: seq<Token>): Option<Query> {
    if COUNT_TOKENS <= ts then
      match ParseOr(ts[8..])
      case Some((c, rest)) => if rest == [] then Some(Count(c)) else None
      case None => None
    else if PAGE_TOKENS <= ts then
      match ParseOr(ts[5..])
      case Some((c, rest)) =>
        if IsPageTail(rest)
        then Some(Page(c, rest[2].text, rest[3] == Word("DESC"), rest[5].n, rest[7].n)) else None
      case None => None
    else None
  }

  function ParseQuery(text: string): Option<Query> {
    ParseTokens(Lex(text))
  }

  /** Both statements of List parse back to the condition they were built from, the second with its order. */
  lemma QueryRoundTrip(c: Cond, limitParam: nat, offsetParam: nat)
    requires WellNamed(c)
    ensures ParseQuery(CountText(CondText(c))) == Some(Count(c))
    ensures ParseQuery(PageText(CondText(c), limitParam, offsetParam)) ==
            Some(Page(c, "created_at", true, limitParam, offsetParam))
  {
    TokensPrintable(c);
    LexRender(OrTokens(c));
    CountRoundTrip(c);
    PageRoundTrip(c, limitParam, offsetParam);
  }

  lemma HeadTokensAre()
    ensures Tokens(COUNT_HEAD) == COUNT_TOKENS && |COUNT_TOKENS| == 8
    ensures Tokens(PAGE_HEAD) == PAGE_TOKENS && |PAGE_TOKENS| == 5 && PAGE_TOKENS[1] == Star
  {
  }

  lemma CountRoundTrip(c: Cond)
    requires Lex(CondText(c)) == OrTokens(c)
    ensures ParseQuery(CountText(CondText(c))) == Some(Count(c))
  {
    CountTokens(CondText(c));
    ParseOrTokens(c, []);
    HeadTokensAre();
    assert OrTokens(c) + [] == OrTokens(c);
    CountParses(COUNT_TOKENS + OrTokens(c), OrTokens(c), c);
  }

  lemma CountParses(ts: seq<Token>, where: seq<Token>, c: Cond)
    requires |COUNT_TOKENS| == 8 && ts == COUNT_TOKENS + where && ParseOr(where) == Some((c, []))
    ensures ParseTokens(ts) == Some(Count(c))
  {
    assert ts[8..] == where;
  }

  lemma TailTokensAre(limitParam: nat, offsetParam: nat)
    ensures var tail := Tokens(PageTail(limitParam, offsetParam));
            && IsPageTail(tail) && tail[2] == Word("created_at") && tail[3] == Word("DESC")
            && tail[5] == Param(limitParam) && tail[7] == Param(offsetParam)
  {
    PageTailPieces(limitParam, offsetParam);
  }

  lemma PageRoundTrip(c: Cond, limitParam: nat, offsetParam: nat)
    requires Lex(CondText(c)) == OrTokens(c)
    ensures ParseQuery(PageText(CondText(c), limitParam, offsetParam)) ==
            Some(Page(c, "created_at", true, limitParam, offsetParam))
  {
    var tail := Tokens(PageTail(limitParam, offsetParam));
    PageTokens(CondText(c), limitParam, offsetParam);
    TailTokensAre(limitParam, offsetParam);
    ParseOrTokens(c, tail);
    HeadTokensAre();
    PageParses(PAGE_TOKENS + (OrTokens(c) + tail), OrTokens(c) + tail, c, tail);
  }

  lemma PageParses(ts: seq<Token>, after: seq<Token>, c: Cond, tail: seq<Token>)
    requires |PAGE_TOKENS| == 5 && PAGE_TOKENS[1] == Star && ts == PAGE_TOKENS + after
    requires ParseOr(after) == Some((c, tail)) && IsPageTail(tail)
    ensures ParseTokens(ts) == Some(Page(c, tail[2].text, tail[3] == Word("DESC"), tail[5].n, tail[7].n))
  {
    assert ts[5..] == after;
    assert ts[1] == Star && !(COUNT_TOKENS <= ts);
  }
}
