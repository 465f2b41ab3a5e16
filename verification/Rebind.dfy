/** The Postgres placeholder rewriter.

    A query is a sequence of bytes, written here as a `string`: every byte the
    rewriter compares against is ASCII, and nothing below depends on the range
    of the other characters.

    The reference meaning is a maximal-munch lexer (`Lex`) followed by a printer
    (`Print`) that numbers the placeholders.  `Resume` says what the one-pass loop
    has still to write in each of its modes. */
module Rebind {

  datatype Kind = Code | Literal | Identifier | LineComment | BlockComment | JsonOp

  datatype Token = Text(kind: Kind, text: string) | Placeholder

  // ---------------------------------------------------------------- lexer

  /** Length of the rest of a quoted run, up to and including its closing quote.
      A doubled quote stands for itself; an unterminated run takes everything. */
  function QuotedLen(s: string, quote: char): (n: nat)
    ensures n <= |s|
    ensures s != [] ==> n > 0
  {
    if s == [] then 0
    else if s[0] != quote then 1 + QuotedLen(s[1..], quote)
    else if |s| > 1 && s[1] == quote then 2 + QuotedLen(s[2..], quote)
    else 1
  }

  /** Length of the rest of a line comment, including its newline. */
  function LineLen(s: string): (n: nat)
    ensures n <= |s|
    ensures s != [] ==> n > 0
  {
    if s == [] then 0
    else if s[0] == '\n' then 1
    else 1 + LineLen(s[1..])
  }

  /** Length of the rest of a block comment, including its closing mark. */
  function BlockLen(s: string): (n: nat)
    ensures n <= |s|
    ensures s != [] ==> n > 0
  {
    if s == [] then 0
    else if s[0] == '*' && |s| > 1 && s[1] == '/' then 2
    else 1 + BlockLen(s[1..])
  }

  predicate IsJsonOp(s: string) {
    |s| >= 2 && s[0] == '?' && (s[1] == '|' || s[1] == '&' || s[1] == '?')
  }

  function FirstKind(s: string): Kind
    requires s != []
  {
    if s[0] == '\'' then Literal
    else if s[0] == '"' then Identifier
    else if s[0] == '-' && |s| > 1 && s[1] == '-' then LineComment
    else if s[0] == '/' && |s| > 1 && s[1] == '*' then BlockComment
    else if IsJsonOp(s) then JsonOp
    else Code
  }

  function FirstLen(s: string): (n: nat)
    requires s != []
    ensures 0 < n <= |s|
  {
    match FirstKind(s)
    case Literal => 1 + QuotedLen(s[1..], '\'')
    case Identifier => 1 + QuotedLen(s[1..], '"')
    case LineComment => 2 + LineLen(s[2..])
    case BlockComment => 2 + BlockLen(s[2..])
    case JsonOp => 2
    case Code => 1
  }

  function FirstToken(s: string): Token
    requires s != []
  {
    if FirstKind(s) == Code && s[0] == '?' then Placeholder
    else Text(FirstKind(s), s[..FirstLen(s)])
  }

  function Lex(s: string): seq<Token> {
    if s == [] then [] else [FirstToken(s)] + Lex(s[FirstLen(s)..])
  }

  // -------------------------------------------------------------- printers

  function TokenText(t: Token): string {
    match t
    case Text(_, text) => text
    case Placeholder => "?"
  }

  function Flatten(ts: seq<Token>): string {
    if ts == [] then [] else TokenText(ts[0]) + Flatten(ts[1..])
  }

  function Digit(d: nat): (c: char)
    requires d < 10
    ensures IsDigit(c)
  {
    (d + '0' as int) as char
  }

  predicate IsDigit(c: char) { '0' <= c <= '9' }

  predicate AllDigits(s: string) { forall i :: 0 <= i < |s| ==> IsDigit(s[i]) }

  /** The decimal text of a number, as `%d` prints it. */
  function Dec(n: nat): (s: string)
    ensures |s| > 0
    ensures AllDigits(s)
  {
    if n < 10 then [Digit(n)] else Dec(n / 10) + [Digit(n % 10)]
  }

  function Print(ts: seq<Token>, n: nat): string {
    if ts == [] then []
    else match ts[0]
      case Text(_, text) => text + Print(ts[1..], n)
      case Placeholder => "$" + Dec(n) + Print(ts[1..], n + 1)
  }

  /** The rewritten form of a query whose first placeholder gets number `n`. */
  function Render(s: string, n: nat): string { Print(Lex(s), n) }

  // ------------------------------------------------------------- the loop

  datatype Mode = InCode | InSingle | InDouble | InLine | InBlock

  function ModeOf(inSingle: bool, inDouble: bool, inLineCmt: bool, inBlockCmt: bool): Mode {
    if inLineCmt then InLine
    else if inBlockCmt then InBlock
    else if inSingle then InSingle
    else if inDouble then InDouble
    else InCode
  }

  function RunLen(m: Mode, s: string): (n: nat)
    ensures n <= |s|
  {
    match m
    case InCode => 0
    case InSingle => QuotedLen(s, '\'')
    case InDouble => QuotedLen(s, '"')
    case InLine => LineLen(s)
    case InBlock => BlockLen(s)
  }

  /** What is still to be written when the loop stands before `s`: the rest of
      the run it is inside, copied, and then the rewritten remainder. */
  function Resume(m: Mode, s: string, n: nat): string {
    s[..RunLen(m, s)] + Render(s[RunLen(m, s)..], n)
  }

  lemma Assoc(a: string, b: string, c: string)
    ensures (a + b) + c == a + (b + c)
  {
  }

  lemma Split(s: string, k: nat, j: nat)
    requires k + j <= |s|
    ensures s[..k + j] == s[..k] + s[k..][..j]
    ensures s[k + j..] == s[k..][j..]
  {
  }

  /** Copying the first `k` bytes of a run whose remaining part is the run of `m'`. */
  lemma Copy(b: string, m: Mode, m': Mode, s: string, k: nat, n: nat)
    requires k <= |s| && RunLen(m, s) == k + RunLen(m', s[k..])
    ensures b + Resume(m, s, n) == (b + s[..k]) + Resume(m', s[k..], n)
  {
    var j := RunLen(m', s[k..]);
    Split(s, k, j);
    Assoc(s[..k], s[k..][..j], Render(s[k + j..], n));
    Assoc(b, s[..k], Resume(m', s[k..], n));
  }

  lemma RenderFirst(s: string, n: nat)
    requires s != []
    ensures FirstToken(s).Placeholder? ==>
              Render(s, n) == "$" + Dec(n) + Render(s[1..], n + 1)
    ensures FirstToken(s).Text? ==>
              Render(s, n) == s[..FirstLen(s)] + Render(s[FirstLen(s)..], n)
  {
    var rest := Lex(s[FirstLen(s)..]);
    assert ([FirstToken(s)] + rest)[1..] == rest;
  }

  lemma ResumeInCode(s: string, n: nat)
    ensures Resume(InCode, s, n) == Render(s, n)
  {
    assert s[0..] == s && s[..0] == [];
  }

  /** A token's opening bytes are copied and its mode is entered. */
  lemma Open(b: string, m': Mode, s: string, k: nat, n: nat)
    requires s != [] && FirstToken(s).Text?
    requires k <= |s| && FirstLen(s) == k + RunLen(m', s[k..])
    ensures b + Resume(InCode, s, n) == (b + s[..k]) + Resume(m', s[k..], n)
  {
    var j := RunLen(m', s[k..]);
    var rest := Render(s[k + j..], n);
    ResumeInCode(s, n);
    RenderFirst(s, n);
    Split(s, k, j);
    Assoc(s[..k], s[k..][..j], rest);
    Assoc(b, s[..k], Resume(m', s[k..], n));
  }

  /** A placeholder is replaced by its number. */
  lemma Number(b: string, s: string, n: nat)
    requires s != [] && FirstToken(s).Placeholder?
    ensures b + Resume(InCode, s, n) == (b + "$" + Dec(n)) + Resume(InCode, s[1..], n + 1)
  {
    ResumeInCode(s, n);
    ResumeInCode(s[1..], n + 1);
    RenderFirst(s, n);
    Assoc(b, "$", Dec(n));
    Assoc(b, "$" + Dec(n), Render(s[1..], n + 1));
  }

  /** What one pass of the loop body may do, standing before `s` in mode `m`. */
  ghost predicate BodyStep(b: string, m: Mode, s: string, n: nat, b': string, m': Mode, k: nat, n': nat) {
    var pair := |s| > 1;
    && 1 <= k <= |s|
    && match m
       case InLine =>
         k == 1 && b' == b + s[..1] && n' == n && m' == (if s[0] == '\n' then InCode else InLine)
       case InBlock =>
         && n' == n && b' == b + s[..k]
         && (if s[0] == '*' && pair && s[1] == '/' then k == 2 && m' == InCode else k == 1 && m' == m)
       case InSingle =>
         && n' == n && b' == b + s[..k]
         && (if s[0] != '\'' then k == 1 && m' == m
             else if pair && s[1] == '\'' then k == 2 && m' == m
             else k == 1 && m' == InCode)
       case InDouble =>
         && n' == n && b' == b + s[..k]
         && (if s[0] != '"' then k == 1 && m' == m
             else if pair && s[1] == '"' then k == 2 && m' == m
             else k == 1 && m' == InCode)
       case InCode =>
         if FirstToken(s).Placeholder? then k == 1 && n' == n + 1 && m' == InCode && b' == b + "$" + Dec(n)
         else
           && n' == n && b' == b + s[..k]
           && match FirstKind(s)
              case Literal => k == 1 && m' == InSingle
              case Identifier => k == 1 && m' == InDouble
              case LineComment => k == 2 && m' == InLine
              case BlockComment => k == 2 && m' == InBlock
              case JsonOp => k == 2 && m' == InCode
              case Code => k == 1 && m' == InCode
  }

  lemma StepKeeps(b: string, m: Mode, s: string, n: nat, b': string, m': Mode, k: nat, n': nat)
    requires s != [] && BodyStep(b, m, s, n, b', m', k, n')
    ensures b + Resume(m, s, n) == b' + Resume(m', s[k..], n')
  {
    if m != InCode {
      Copy(b, m, m', s, k, n);
    } else if FirstToken(s).Placeholder? {
      Number(b, s, n);
    } else {
      Open(b, m', s, k, n);
    }
  }
}
