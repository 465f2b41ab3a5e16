/** `rebindPostgres` itself: one pass over the bytes of a query, proved to print its
    numbered tokens. */
module RebindLoop {
  import opened Rebind

  /** One position inside quotes: how many bytes to copy and whether they close. */
  method InsideQuotes(q: string, i: nat, quote: char) returns (k: nat, closed: bool)
    requires i < |q|
    ensures var s := q[i..];
            if s[0] != quote then k == 1 && !closed
            else if |s| > 1 && s[1] == quote then k == 2 && !closed
            else k == 1 && closed
  {
    if q[i] != quote {
      return 1, false;
    }
    if i + 1 < |q| && q[i + 1] == quote {
      return 2, false;
    }
    return 1, true;
  }

  /** One position of plain code: how many bytes to copy and the mode they enter,
      unless it is a placeholder. */
  method InsideCode(q: string, i: nat) returns (k: nat, placeholder: bool, next: Mode)
    requires i < |q|
    ensures placeholder <==> FirstToken(q[i..]).Placeholder?
    ensures placeholder ==> k == 1 && next == InCode
    ensures !placeholder ==>
              match FirstKind(q[i..])
              case Literal => k == 1 && next == InSingle
              case Identifier => k == 1 && next == InDouble
              case LineComment => k == 2 && next == InLine
              case BlockComment => k == 2 && next == InBlock
              case JsonOp => k == 2 && next == InCode
              case Code => k == 1 && next == InCode
    ensures k <= |q| - i
  {
    var c := q[i];
    if c == '\'' {
      return 1, false, InSingle;
    } else if c == '"' {
      return 1, false, InDouble;
    } else if c == '-' && i + 1 < |q| && q[i + 1] == '-' {
      return 2, false, InLine;
    } else if c == '/' && i + 1 < |q| && q[i + 1] == '*' {
      return 2, false, InBlock;
    } else if c == '?' {
      if i + 1 < |q| && (q[i + 1] == '|' || q[i + 1] == '&' || q[i + 1] == '?') {
        return 2, false, InCode;
      }
      return 1, true, InCode;
    }
    return 1, false, InCode;
  }

  /** What is still to be written from byte `i` on is this text and what is left
      after `k` bytes. */
  ghost predicate Writes(q: string, i: nat, m: Mode, n: nat, k: nat, next: Mode, text: string, number: nat) {
    && i < |q| && 1 <= k <= |q| - i
    && Resume(m, q[i..], n) == text + Resume(next, q[i + k..], number)
  }

  /** One pass of the loop, standing before byte `i` in mode `m`: what is still to
      be written then is the text it writes now and what is left after it. */
  method OnePass(q: string, i: nat, m: Mode, n: nat) returns (k: nat, next: Mode, text: string, number: nat)
    requires i < |q|
    ensures Writes(q, i, m, n, k, next, text, number)
  {
    hide Resume, Lex, Dec, Render, RunLen;
    ghost var s := q[i..];
    k, next, number := 1, m, n;
    var placeholder := false;
    match m {
      case InLine =>
        if q[i] == '\n' { next := InCode; }
      case InBlock =>
        if q[i] == '*' && i + 1 < |q| && q[i + 1] == '/' {
          k, next := 2, InCode;
        }
      case InSingle =>
        var closed;
        k, closed := InsideQuotes(q, i, '\'');
        if closed { next := InCode; }
      case InDouble =>
        var closed;
        k, closed := InsideQuotes(q, i, '"');
        if closed { next := InCode; }
      case InCode =>
        k, placeholder, next := InsideCode(q, i);
    }
    if placeholder {
      text := "$" + Dec(n);
      number := n + 1;
    } else {
      text := q[i..i + k];
    }
    assert s[..k] == q[i..i + k] && s[k..] == q[i + k..];
    assert [] + "$" + Dec(n) == "$" + Dec(n);
    hide FirstKind, FirstLen, FirstToken;
    StepKeeps([], m, s, n, text, next, k, number);
    assert [] + Resume(m, s, n) == Resume(m, s, n);
  }

  /** `rebindPostgres`: one pass over the bytes with four mode flags. */
  method RebindPostgres(q: string) returns (out: string)
    ensures out == Print(Lex(q), 1)
  {
    var b := "";
    var n := 1;
    var inSingle, inDouble, inLineCmt, inBlockCmt := false, false, false, false;
    var i := 0;
    assert q[0..] == q;
    ResumeInCode(q, 1);
    assert b + Resume(InCode, q, 1) == Render(q, 1);
    while i < |q|
      invariant 0 <= i <= |q|
      invariant b + Resume(ModeOf(inSingle, inDouble, inLineCmt, inBlockCmt), q[i..], n) == Render(q, 1)
    {
      hide Resume, Render;
      var k, next, text, number := OnePass(q, i, ModeOf(inSingle, inDouble, inLineCmt, inBlockCmt), n);
      inSingle, inDouble, inLineCmt, inBlockCmt := next == InSingle, next == InDouble, next == InLine, next == InBlock;
      Assoc(b, text, Resume(next, q[i + k..], number));
      b := b + text;
      n := number;
      i := i + k;
    }
    assert b + Resume(ModeOf(inSingle, inDouble, inLineCmt, inBlockCmt), "", n) == b;
    return b;
  }
}
