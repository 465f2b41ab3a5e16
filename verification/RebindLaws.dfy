/** Laws of the placeholder rewriter: what its output means, for every query. */
module RebindLaws {
  import opened Rebind

  // ------------------------------------- the grammar of a tokenised query

  predicate StartsWith(s: string, c: char) { s != [] && s[0] == c }

  /** The inside of a quoted run and its closing quote: quotes are doubled, the
      closing one is not followed by another, and only the end of the query
      leaves a run open. */
  predicate QuotedRun(x: string, quote: char, rest: string) {
    if x == [] then rest == []
    else if x[0] != quote then QuotedRun(x[1..], quote, rest)
    else if |x| == 1 then !StartsWith(rest, quote)
    else x[1] == quote && QuotedRun(x[2..], quote, rest)
  }

  predicate LineRun(x: string, rest: string) {
    if x == [] then rest == []
    else if x[0] == '\n' then |x| == 1
    else LineRun(x[1..], rest)
  }

  predicate BlockRun(x: string, rest: string) {
    if x == [] then rest == []
    else if x[0] == '*' && |x| > 1 && x[1] == '/' then |x| == 2
    else BlockRun(x[1..], rest)
  }

  /** `t` may stand immediately before the text `rest`. */
  predicate Fits(t: Token, rest: string) {
    match t
    case Placeholder => !StartsWith(rest, '|') && !StartsWith(rest, '&') && !StartsWith(rest, '?')
    case Text(Literal, x) => StartsWith(x, '\'') && QuotedRun(x[1..], '\'', rest)
    case Text(Identifier, x) => StartsWith(x, '"') && QuotedRun(x[1..], '"', rest)
    case Text(LineComment, x) => |x| >= 2 && x[0] == '-' && x[1] == '-' && LineRun(x[2..], rest)
    case Text(BlockComment, x) => |x| >= 2 && x[0] == '/' && x[1] == '*' && BlockRun(x[2..], rest)
    case Text(JsonOp, x) => x == "?|" || x == "?&" || x == "??"
    case Text(Code, x) =>
      && |x| == 1
      && x[0] != '\'' && x[0] != '"' && x[0] != '?'
      && (x[0] == '-' ==> !StartsWith(rest, '-'))
      && (x[0] == '/' ==> !StartsWith(rest, '*'))
  }

  /** A well-formed tokenised query. */
  predicate Canonical(ts: seq<Token>) {
    ts == [] || (Fits(ts[0], Flatten(ts[1..])) && Canonical(ts[1..]))
  }

  lemma {:induction false} QuotedRunLen(x: string, quote: char, rest: string)
    requires QuotedRun(x, quote, rest)
    ensures QuotedLen(x + rest, quote) == |x|
  {
    if x != [] {
      assert (x + rest)[1..] == x[1..] + rest;
      if x[0] != quote {
        QuotedRunLen(x[1..], quote, rest);
      } else if |x| > 1 {
        assert (x + rest)[2..] == x[2..] + rest;
        QuotedRunLen(x[2..], quote, rest);
      }
    }
  }

  lemma {:induction false} LineRunLen(x: string, rest: string)
    requires LineRun(x, rest)
    ensures LineLen(x + rest) == |x|
  {
    if x != [] && x[0] != '\n' {
      assert (x + rest)[1..] == x[1..] + rest;
      LineRunLen(x[1..], rest);
    }
  }

  lemma {:induction false} BlockRunLen(x: string, rest: string)
    requires BlockRun(x, rest)
    ensures BlockLen(x + rest) == |x|
  {
    if x != [] && !(x[0] == '*' && |x| > 1 && x[1] == '/') {
      assert (x + rest)[1..] == x[1..] + rest;
      BlockRunLen(x[1..], rest);
    }
  }

  lemma {:induction false} QuotedLenRun(s: string, quote: char)
    ensures QuotedRun(s[..QuotedLen(s, quote)], quote, s[QuotedLen(s, quote)..])
  {
    var m := QuotedLen(s, quote);
    if s != [] {
      if s[0] != quote {
        QuotedLenRun(s[1..], quote);
        assert s[..m][1..] == s[1..][..m - 1] && s[m..] == s[1..][m - 1..];
      } else if |s| > 1 && s[1] == quote {
        QuotedLenRun(s[2..], quote);
        assert s[..m][2..] == s[2..][..m - 2] && s[m..] == s[2..][m - 2..];
      }
    }
  }

  lemma {:induction false} LineLenRun(s: string)
    ensures LineRun(s[..LineLen(s)], s[LineLen(s)..])
  {
    var m := LineLen(s);
    if s != [] && s[0] != '\n' {
      LineLenRun(s[1..]);
      assert s[..m][1..] == s[1..][..m - 1] && s[m..] == s[1..][m - 1..];
    }
  }

  lemma {:induction false} BlockLenRun(s: string)
    ensures BlockRun(s[..BlockLen(s)], s[BlockLen(s)..])
  {
    var m := BlockLen(s);
    if s != [] && !(s[0] == '*' && |s| > 1 && s[1] == '/') {
      BlockLenRun(s[1..]);
      assert s[..m][1..] == s[1..][..m - 1] && s[m..] == s[1..][m - 1..];
    }
  }

  lemma QuotedFits(s: string, quote: char)
    requires s != [] && s[0] == quote
    ensures var m := 1 + QuotedLen(s[1..], quote);
            StartsWith(s[..m], quote) && QuotedRun(s[..m][1..], quote, s[m..])
  {
    var m := 1 + QuotedLen(s[1..], quote);
    QuotedLenRun(s[1..], quote);
    assert s[..m][1..] == s[1..][..m - 1] && s[m..] == s[1..][m - 1..];
    hide QuotedRun, QuotedLen;
  }

  lemma CommentFits(s: string)
    requires |s| >= 2
    ensures var m := 2 + LineLen(s[2..]); |s[..m]| >= 2 && LineRun(s[..m][2..], s[m..])
    ensures var m := 2 + BlockLen(s[2..]); |s[..m]| >= 2 && BlockRun(s[..m][2..], s[m..])
  {
    var l, b := 2 + LineLen(s[2..]), 2 + BlockLen(s[2..]);
    LineLenRun(s[2..]);
    BlockLenRun(s[2..]);
    assert s[..l][2..] == s[2..][..l - 2] && s[l..] == s[2..][l - 2..];
    assert s[..b][2..] == s[2..][..b - 2] && s[b..] == s[2..][b - 2..];
    hide LineRun, BlockRun, LineLen, BlockLen;
  }

  lemma FirstTokenFits(s: string)
    requires s != []
    ensures TokenText(FirstToken(s)) == s[..FirstLen(s)]
    ensures Fits(FirstToken(s), s[FirstLen(s)..])
  {
    hide QuotedRun, LineRun, BlockRun, QuotedLen, LineLen, BlockLen;
    match FirstKind(s)
    case Literal => QuotedFits(s, '\'');
    case Identifier => QuotedFits(s, '"');
    case LineComment => CommentFits(s);
    case BlockComment => CommentFits(s);
    case JsonOp => assert s[..2] == [s[0], s[1]];
    case Code => assert s[..1] == [s[0]];
  }

  lemma FittingTokenIsFirst(t: Token, rest: string)
    requires Fits(t, rest)
    ensures TokenText(t) != []
    ensures FirstToken(TokenText(t) + rest) == t
    ensures FirstLen(TokenText(t) + rest) == |TokenText(t)|
  {
    var x := TokenText(t);
    var s := x + rest;
    assert s[..|x|] == x;
    match t
    case Placeholder =>
    case Text(Literal, _) =>
      QuotedRunLen(x[1..], '\'', rest);
      assert s[1..] == x[1..] + rest;
    case Text(Identifier, _) =>
      QuotedRunLen(x[1..], '"', rest);
      assert s[1..] == x[1..] + rest;
    case Text(LineComment, _) =>
      LineRunLen(x[2..], rest);
      assert s[2..] == x[2..] + rest;
    case Text(BlockComment, _) =>
      BlockRunLen(x[2..], rest);
      assert s[2..] == x[2..] + rest;
    case Text(_, _) =>
  }

  lemma FlattenCons(t: Token, ts: seq<Token>)
    ensures Flatten([t] + ts) == TokenText(t) + Flatten(ts)
    ensures Placeholders([t] + ts) == (if t.Placeholder? then 1 else 0) + Placeholders(ts)
  {
    assert ([t] + ts)[1..] == ts;
  }

  lemma CanonicalCons(t: Token, ts: seq<Token>)
    requires Fits(t, Flatten(ts)) && Canonical(ts)
    ensures Canonical([t] + ts)
  {
    assert ([t] + ts)[1..] == ts;
  }

  lemma LexEmpty()
    ensures Lex([]) == [] && Flatten([]) == [] && Canonical([])
  {
  }

  lemma LexStep(s: string)
    requires s != []
    ensures Lex(s) == [FirstToken(s)] + Lex(s[FirstLen(s)..])
  {
    hide FirstToken, FirstLen;
  }

  /** Lexing loses nothing and yields a well-formed tokenisation. */
  lemma {:induction false} LexIsCanonical(s: string)
    ensures Flatten(Lex(s)) == s
    ensures Canonical(Lex(s))
  {
    hide FirstToken, FirstLen, Fits, Lex, Flatten, Canonical;
    if s == [] {
      LexEmpty();
    } else {
      var t, r := FirstToken(s), s[FirstLen(s)..];
      FirstTokenFits(s);
      LexIsCanonical(r);
      LexStep(s);
      CanonicalCons(t, Lex(r));
      FlattenCons(t, Lex(r));
    }
  }

  /** The lexer's answer is the only well-formed tokenisation of a query. */
  lemma {:induction false} CanonicalIsUnique(ts: seq<Token>)
    requires Canonical(ts)
    ensures Lex(Flatten(ts)) == ts
  {
    hide FirstToken, FirstLen, Fits;
    if ts != [] {
      var rest := Flatten(ts[1..]);
      FittingTokenIsFirst(ts[0], rest);
      CanonicalIsUnique(ts[1..]);
      var x := TokenText(ts[0]);
      assert (x + rest)[|x|..] == rest;
      assert ts == [ts[0]] + ts[1..];
    }
  }

  // ------------------------------------------------- numbering and copying

  function Placeholders(ts: seq<Token>): nat {
    if ts == [] then 0 else (if ts[0].Placeholder? then 1 else 0) + Placeholders(ts[1..])
  }

  /** What token `t` becomes when it is (or would be) placeholder number `n`. */
  function Piece(t: Token, n: nat): string {
    match t
    case Text(_, text) => text
    case Placeholder => "$" + Dec(n)
  }

  lemma PrintCons(t: Token, ts: seq<Token>, n: nat)
    ensures Print([t] + ts, n) == Piece(t, n) + Print(ts, if t.Placeholder? then n + 1 else n)
  {
    assert ([t] + ts)[1..] == ts;
  }

  lemma {:induction false} PrintConcat(a: seq<Token>, b: seq<Token>, n: nat)
    ensures Print(a + b, n) == Print(a, n) + Print(b, n + Placeholders(a))
  {
    if a == [] {
      assert a + b == b;
    } else {
      var t, us, n' := a[0], a[1..], if a[0].Placeholder? then n + 1 else n;
      assert a == [t] + us;
      ConcatCons(t, us, b);
      PrintConcat(us, b, n');
      hide Print, Piece, Placeholders;
      PrintCons(t, us + b, n);
      PrintCons(t, us, n);
      FlattenCons(t, us);
      Assoc(Piece(t, n), Print(us, n'), Print(b, n' + Placeholders(us)));
    }
  }

  /** Token `i` of the query is printed between the print of what precedes it
      and the print of what follows; a placeholder gets the number of
      placeholders before it plus the starting number, everything else is copied. */
  lemma PrintAt(ts: seq<Token>, n: nat, i: nat)
    requires i < |ts|
    ensures var k := n + Placeholders(ts[..i]);
            Print(ts, n) == Print(ts[..i], n)
                            + (Piece(ts[i], k) + Print(ts[i + 1..], if ts[i].Placeholder? then k + 1 else k))
  {
    assert ts == ts[..i] + ts[i..];
    assert ts[i..][1..] == ts[i + 1..];
    PrintConcat(ts[..i], ts[i..], n);
  }

  function DigitsValue(s: string): nat
    requires AllDigits(s)
  {
    if s == [] then 0
    else DigitsValue(s[..|s| - 1]) * 10 + (s[|s| - 1] as int - '0' as int)
  }

  /** The number written is the number meant, without a leading zero. */
  lemma {:induction false} DecValue(n: nat)
    ensures DigitsValue(Dec(n)) == n
    ensures n > 0 ==> Dec(n)[0] != '0'
  {
    if n >= 10 {
      DecValue(n / 10);
      assert Dec(n)[..|Dec(n)| - 1] == Dec(n / 10);
    }
  }

  function DigitCounts(from: nat, count: nat): nat
    decreases count
  {
    if count == 0 then 0 else |Dec(from)| + DigitCounts(from + 1, count - 1)
  }

  /** Each placeholder grows by exactly the digits of its number. */
  lemma {:induction false} RenderedLength(ts: seq<Token>, n: nat)
    ensures |Print(ts, n)| == |Flatten(ts)| + DigitCounts(n, Placeholders(ts))
  {
    if ts != [] {
      RenderedLength(ts[1..], if ts[0].Placeholder? then n + 1 else n);
    }
  }

  // --------------------------------------------- the output as a query again

  function CodeTokens(s: string): seq<Token> {
    if s == [] then [] else [Text(Code, s[..1])] + CodeTokens(s[1..])
  }

  /** The tokens of the output: a numbered placeholder is ordinary code. */
  function Expand(ts: seq<Token>, n: nat): seq<Token> {
    if ts == [] then []
    else match ts[0]
      case Text(_, _) => [ts[0]] + Expand(ts[1..], n)
      case Placeholder => CodeTokens("$" + Dec(n)) + Expand(ts[1..], n + 1)
  }

  lemma {:induction false} FlattenConcat(a: seq<Token>, b: seq<Token>)
    ensures Flatten(a + b) == Flatten(a) + Flatten(b)
    ensures Placeholders(a + b) == Placeholders(a) + Placeholders(b)
  {
    if a == [] {
      assert a + b == b;
    } else {
      assert (a + b)[1..] == a[1..] + b;
      FlattenConcat(a[1..], b);
    }
  }

  predicate PlainChar(c: char) { c == '$' || IsDigit(c) }

  lemma {:induction false} CodeTokensText(s: string)
    ensures Flatten(CodeTokens(s)) == s
    ensures Placeholders(CodeTokens(s)) == 0
    ensures |CodeTokens(s)| == |s|
  {
    if s != [] {
      CodeTokensText(s[1..]);
      FlattenCons(Text(Code, s[..1]), CodeTokens(s[1..]));
      assert s == s[..1] + s[1..];
    }
  }

  lemma ConcatCons<T>(t: T, a: seq<T>, b: seq<T>)
    ensures ([t] + a) + b == [t] + (a + b)
  {
  }

  lemma {:induction false} CodeTokensCanonical(s: string, rest: seq<Token>)
    requires forall i :: 0 <= i < |s| ==> PlainChar(s[i])
    requires Canonical(rest)
    ensures Canonical(CodeTokens(s) + rest)
  {
    if s == [] {
      assert CodeTokens(s) + rest == rest;
    } else {
      CodeTokensCanonical(s[1..], rest);
      ConcatCons(Text(Code, s[..1]), CodeTokens(s[1..]), rest);
      CanonicalCons(Text(Code, s[..1]), CodeTokens(s[1..]) + rest);
    }
  }

  lemma {:induction false} ExpandFlattens(ts: seq<Token>, n: nat)
    ensures Flatten(Expand(ts, n)) == Print(ts, n)
    ensures Placeholders(Expand(ts, n)) == 0
  {
    if ts != [] {
      if ts[0].Placeholder? {
        ExpandFlattens(ts[1..], n + 1);
        CodeTokensText("$" + Dec(n));
        FlattenConcat(CodeTokens("$" + Dec(n)), Expand(ts[1..], n + 1));
      } else {
        ExpandFlattens(ts[1..], n);
        assert Expand(ts, n)[1..] == Expand(ts[1..], n);
      }
    }
  }

  /** The output starts as the query does, or with `$` where that had `?`. */
  lemma PrintStart(ts: seq<Token>, n: nat)
    requires Canonical(ts)
    ensures Flatten(ts) == [] <==> Print(ts, n) == []
    ensures Flatten(ts) != [] ==>
              Print(ts, n)[0] == Flatten(ts)[0] || (Print(ts, n)[0] == '$' && Flatten(ts)[0] == '?')
  {
    if ts != [] {
      FittingTokenIsFirst(ts[0], Flatten(ts[1..]));
    }
  }

  lemma {:induction false} QuotedRunAny(x: string, quote: char, rest: string, rest': string)
    requires QuotedRun(x, quote, rest)
    requires rest == [] ==> rest' == []
    requires !StartsWith(rest, quote) ==> !StartsWith(rest', quote)
    ensures QuotedRun(x, quote, rest')
  {
    if x != [] {
      if x[0] != quote { QuotedRunAny(x[1..], quote, rest, rest'); }
      else if |x| > 1 { QuotedRunAny(x[2..], quote, rest, rest'); }
    }
  }

  lemma {:induction false} OpenRunAny(x: string, rest: string, rest': string)
    requires rest == [] ==> rest' == []
    ensures LineRun(x, rest) ==> LineRun(x, rest')
    ensures BlockRun(x, rest) ==> BlockRun(x, rest')
  {
    if x != [] { OpenRunAny(x[1..], rest, rest'); }
  }

  lemma FitsRewritten(t: Token, rest: string, rest': string)
    requires t.Text? && Fits(t, rest)
    requires rest == [] <==> rest' == []
    requires rest != [] ==> rest'[0] == rest[0] || (rest'[0] == '$' && rest[0] == '?')
    ensures Fits(t, rest')
  {
    match t
    case Text(Literal, x) => QuotedRunAny(x[1..], '\'', rest, rest');
    case Text(Identifier, x) => QuotedRunAny(x[1..], '"', rest, rest');
    case Text(LineComment, x) => OpenRunAny(x[2..], rest, rest');
    case Text(BlockComment, x) => OpenRunAny(x[2..], rest, rest');
    case _ =>
  }

  lemma {:induction false} ExpandCanonical(ts: seq<Token>, n: nat)
    requires Canonical(ts)
    ensures Canonical(Expand(ts, n))
  {
    if ts != [] {
      if ts[0].Placeholder? {
        ExpandCanonical(ts[1..], n + 1);
        CodeTokensCanonical("$" + Dec(n), Expand(ts[1..], n + 1));
      } else {
        ExpandCanonical(ts[1..], n);
        ExpandFlattens(ts[1..], n);
        PrintStart(ts[1..], n);
        FitsRewritten(ts[0], Flatten(ts[1..]), Flatten(Expand(ts[1..], n)));
        assert Expand(ts, n)[1..] == Expand(ts[1..], n);
      }
    }
  }

  /** The lexer reads the output exactly as it read the query, with every
      placeholder turned into code: literals, identifiers and comments of the
      query are those of the output. */
  lemma OutputTokens(q: string, n: nat)
    ensures Lex(Render(q, n)) == Expand(Lex(q), n)
  {
    LexIsCanonical(q);
    ExpandCanonical(Lex(q), n);
    ExpandFlattens(Lex(q), n);
    CanonicalIsUnique(Expand(Lex(q), n));
  }

  lemma {:induction false} NoPlaceholderNoChange(ts: seq<Token>, n: nat)
    requires Placeholders(ts) == 0
    ensures Print(ts, n) == Flatten(ts)
  {
    if ts != [] { NoPlaceholderNoChange(ts[1..], n); }
  }

  /** Rewriting a rewritten query changes nothing. */
  lemma Idempotent(q: string, n: nat, m: nat)
    ensures Render(Render(q, n), m) == Render(q, n)
  {
    OutputTokens(q, n);
    ExpandFlattens(Lex(q), n);
    NoPlaceholderNoChange(Expand(Lex(q), n), m);
  }

  /** A query comes out longer by the digits of the numbers put into it. */
  lemma OutputLength(q: string)
    ensures |Render(q, 1)| == |q| + DigitCounts(1, Placeholders(Lex(q)))
  {
    LexIsCanonical(q);
    RenderedLength(Lex(q), 1);
  }

  // ------------------------------------------------ reading the output back

  predicate IsCode(t: Token, c: char) { t == Text(Code, [c]) }

  predicate IsCodeDigit(t: Token) { t.Text? && t.kind == Code && |t.text| == 1 && IsDigit(t.text[0]) }

  function DigitRun(ts: seq<Token>): (n: nat)
    ensures n <= |ts|
  {
    if ts != [] && IsCodeDigit(ts[0]) then 1 + DigitRun(ts[1..]) else 0
  }

  /** Reads a numbered query as the server does: in code, a `$` and the longest
      run of digits after it is one placeholder. */
  function Collapse(ts: seq<Token>): seq<Token> {
    if ts == [] then []
    else if IsCode(ts[0], '$') && DigitRun(ts[1..]) > 0 then
      [Placeholder] + Collapse(ts[1 + DigitRun(ts[1..])..])
    else [ts[0]] + Collapse(ts[1..])
  }

  function Unbind(s: string): string { Flatten(Collapse(Lex(s))) }

  /** No placeholder and no `$` of the query's code stands right before a digit. */
  predicate DigitsApart(ts: seq<Token>) {
    ts == [] ||
    (&& (ts[0].Placeholder? || IsCode(ts[0], '$') ==> DigitRun(ts[1..]) == 0)
     && DigitsApart(ts[1..]))
  }

  lemma {:induction false} DigitRunOfNumber(s: string, rest: seq<Token>)
    requires AllDigits(s)
    ensures DigitRun(CodeTokens(s) + rest) == |s| + DigitRun(rest)
  {
    if s == [] {
      assert CodeTokens(s) + rest == rest;
    } else {
      DigitRunOfNumber(s[1..], rest);
      ConcatCons(Text(Code, s[..1]), CodeTokens(s[1..]), rest);
      assert ([Text(Code, s[..1])] + (CodeTokens(s[1..]) + rest))[1..] == CodeTokens(s[1..]) + rest;
    }
  }

  lemma {:induction false} DigitRunExpanded(ts: seq<Token>, n: nat)
    ensures DigitRun(Expand(ts, n)) == DigitRun(ts)
    ensures Expand(ts, n)[DigitRun(ts)..] == Expand(ts[DigitRun(ts)..], n)
  {
    if ts != [] && IsCodeDigit(ts[0]) {
      DigitRunExpanded(ts[1..], n);
      assert Expand(ts, n)[1..] == Expand(ts[1..], n);
      var d := DigitRun(ts[1..]);
      assert ts[1..][d..] == ts[1 + d..];
      assert Expand(ts, n)[1..][d..] == Expand(ts, n)[1 + d..];
    } else if ts != [] && ts[0].Placeholder? {
      assert Expand(ts, n)[0] == CodeTokens("$" + Dec(n))[0];
    }
  }

  lemma CollapseDollar(body: seq<Token>, m: nat)
    requires m == DigitRun(body) && m > 0
    ensures Collapse([Text(Code, "$")] + body) == [Placeholder] + Collapse(body[m..])
  {
    var us := [Text(Code, "$")] + body;
    assert us[1..] == body;
    assert us[1 + m..] == body[m..];
  }

  lemma DropPast<T>(a: seq<T>, b: seq<T>, d: nat)
    requires d <= |b|
    ensures (a + b)[|a| + d..] == b[d..]
  {
  }

  lemma ExpandNumber(num: string, tail: seq<Token>)
    ensures CodeTokens("$" + num) + tail == [Text(Code, "$")] + (CodeTokens(num) + tail)
  {
    assert ("$" + num)[1..] == num;
    assert ("$" + num)[..1] == "$";
  }

  lemma CollapseNumeral(num: string, us: seq<Token>, n: nat)
    requires AllDigits(num) && num != ""
    ensures Collapse(CodeTokens("$" + num) + Expand(us, n)) ==
            [Placeholder] + Collapse(Expand(us[DigitRun(us)..], n))
  {
    hide Expand, CodeTokens, Collapse, DigitRun;
    var d, tail := DigitRun(us), Expand(us, n);
    DigitRunExpanded(us, n);
    ExpandNumber(num, tail);
    DigitRunOfNumber(num, tail);
    CodeTokensText(num);
    CollapseDollar(CodeTokens(num) + tail, |num| + d);
    DropPast(CodeTokens(num), tail, d);
  }

  lemma CollapseNumber(ts: seq<Token>, n: nat)
    requires ts != [] && ts[0].Placeholder?
    ensures Collapse(Expand(ts, n)) ==
            [Placeholder] + Collapse(Expand(ts[1 + DigitRun(ts[1..])..], n + 1))
  {
    CollapseNumeral(Dec(n), ts[1..], n + 1);
    assert ts[1..][DigitRun(ts[1..])..] == ts[1 + DigitRun(ts[1..])..];
  }

  lemma CollapseText(ts: seq<Token>, n: nat)
    requires ts != [] && ts[0].Text?
    ensures var d := DigitRun(ts[1..]);
            Collapse(Expand(ts, n)) ==
              if IsCode(ts[0], '$') && d > 0 then [Placeholder] + Collapse(Expand(ts[1 + d..], n))
              else [ts[0]] + Collapse(Expand(ts[1..], n))
  {
    var d := DigitRun(ts[1..]);
    assert ts[1..][d..] == ts[1 + d..];
    assert Expand(ts, n)[1..] == Expand(ts[1..], n);
    DigitRunExpanded(ts[1..], n);
    assert Expand(ts, n)[1 + d..] == Expand(ts[1..], n)[d..];
  }

  lemma {:induction false} DigitRunLength(ts: seq<Token>)
    ensures |Flatten(ts)| == DigitRun(ts) + |Flatten(ts[DigitRun(ts)..])|
    ensures DigitsApart(ts) ==> DigitsApart(ts[DigitRun(ts)..])
  {
    if ts != [] && IsCodeDigit(ts[0]) {
      DigitRunLength(ts[1..]);
      assert ts[1..][DigitRun(ts[1..])..] == ts[DigitRun(ts)..];
    }
  }

  /** The first token of a numbered query and what reading it back makes of it. */
  lemma CollapseParts(ts: seq<Token>, n: nat)
    requires ts != []
    ensures var d, m := DigitRun(ts[1..]), if ts[0].Placeholder? then n + 1 else n;
            var got := Collapse(Expand(ts, n));
            && |Flatten(ts)| == |TokenText(ts[0])| + d + |Flatten(ts[1 + d..])|
            && |Flatten(ts)| == |TokenText(ts[0])| + |Flatten(ts[1..])|
            && (d == 0 ==> ts[1 + d..] == ts[1..])
            && if ts[0].Placeholder? || (IsCode(ts[0], '$') && d > 0) then
                 && got == [Placeholder] + Collapse(Expand(ts[1 + d..], m))
                 && |Flatten(got)| == 1 + |Flatten(Collapse(Expand(ts[1 + d..], m)))|
                 && |TokenText(ts[0])| == 1
               else
                 && got == [ts[0]] + Collapse(Expand(ts[1..], m))
                 && |Flatten(got)| == |TokenText(ts[0])| + |Flatten(Collapse(Expand(ts[1..], m)))|
  {
    hide Expand, Collapse, DigitRun, DigitsApart, Flatten;
    var d := DigitRun(ts[1..]);
    assert ts[1..][d..] == ts[1 + d..];
    assert ts == [ts[0]] + ts[1..];
    if ts[0].Placeholder? { CollapseNumber(ts, n); } else { CollapseText(ts, n); }
    DigitRunLength(ts[1..]);
    FlattenCons(ts[0], ts[1..]);
    var m := if ts[0].Placeholder? then n + 1 else n;
    FlattenCons(Placeholder, Collapse(Expand(ts[1 + d..], m)));
    FlattenCons(ts[0], Collapse(Expand(ts[1..], m)));
  }

  lemma {:induction false} CollapseCounts(ts: seq<Token>, n: nat)
    ensures DigitsApart(ts) ==> Collapse(Expand(ts, n)) == ts
    ensures |Flatten(Collapse(Expand(ts, n)))| <= |Flatten(ts)|
    ensures !DigitsApart(ts) ==> |Flatten(Collapse(Expand(ts, n)))| < |Flatten(ts)|
    decreases |ts|
  {
    if ts == [] {
      assert Collapse(Expand([], n)) == [];
    } else {
      hide Expand, Collapse, DigitRun, Flatten, TokenText;
      var d, m := DigitRun(ts[1..]), if ts[0].Placeholder? then n + 1 else n;
      CollapseParts(ts, n);
      CollapseCounts(ts[1 + d..], m);
      CollapseCounts(ts[1..], m);
      assert ts == [ts[0]] + ts[1..];
    }
  }

  /** Reading the numbered placeholders back gives the query exactly when, in
      its code, no `?` placeholder and no `$` stands right before a digit. */
  lemma RoundTrip(q: string)
    ensures Unbind(Render(q, 1)) == q <==> DigitsApart(Lex(q))
  {
    OutputTokens(q, 1);
    LexIsCanonical(q);
    CollapseCounts(Lex(q), 1);
  }

  /** A query outside that condition: `?5` is rewritten to placeholder 15. */
  lemma DigitAfterPlaceholder()
    ensures Render("?5", 1) == "$15"
    ensures Collapse(Lex(Render("?5", 1))) == [Placeholder]
    ensures !DigitsApart(Lex("?5"))
  {
    var ts := [Placeholder, Text(Code, "5")];
    assert ts[1..] == [Text(Code, "5")] && ts[1..][1..] == [];
    assert Flatten(ts[1..]) == "5" && Flatten(ts) == "?5";
    CanonicalIsUnique(ts);
    assert Dec(1) == "1";
    assert Print(ts, 1) == "$15";
    OutputTokens("?5", 1);
    CollapseNumber(ts, 1);
    assert DigitRun(ts[1..]) == 1;
    assert Collapse(Expand([], 2)) == [];
  }
}
