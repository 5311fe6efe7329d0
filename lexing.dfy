/** The lexer: a three-state machine over a `PosScanner`. Each state reads one
    rune and says which state comes next, which token (if any) it produced, and
    whether the current call of `Next` is finished.

    The pure part describes a step and a whole `Next` call on the input and the
    reader's position; the methods at the end do the same work through the
    scanner and are proved to agree with it. */
module Lexing {
  import opened Runes
  import opened Scanner

  datatype TokenType = TokenNone | TokenParabreak | TokenOpen | TokenClose | TokenWord

  /** A token; `value` is filled in only for words. */
  datatype Token = Token(kind: TokenType, value: string)

  /** Go's `token{}`. */
  const EMPTY_TOKEN := Token(TokenNone, "")

  /** The lexer states: `lexStart`, `lexParabreak` and the closure that
      `lexWord` returns, here carrying the buffer the closure captured. */
  datatype State = Start | Parabreak | Word(buf: string)

  /** A rune that extends a word. */
  predicate WordRune(cc: Classes, c: char) {
    c != '{' && c != '}' && !cc.isSpace(c) && cc.isPrint(c)
  }

  /** A possible word value: non-empty and made of word runes only. */
  predicate WordText(cc: Classes, v: string) {
    |v| > 0 && forall i :: 0 <= i < |v| ==> WordRune(cc, v[i])
  }

  /** The states the machine can be in: a word buffer always holds a word. */
  predicate Reachable(cc: Classes, s: State) {
    s.Word? ==> WordText(cc, s.buf)
  }

  /** Termination bonus: from `Parabreak` the machine may return to `Start`
      without consuming the rune it read. */
  function Rank(s: State): nat {
    if s.Parabreak? then 1 else 0
  }

  /** What one state function returns, with the reader's position afterwards. */
  datatype StepResult = StepResult(next: State, tok: Token, done: bool, err: Option<Error>, pos: nat)

  /** One call of the current state function on `input` with the cursor at `pos`.
      A rune read and then pushed back shows as an unchanged `pos`. */
  function Step(cc: Classes, input: seq<char>, s: State, pos: nat): (r: StepResult)
    requires pos <= |input|
    ensures r.pos == pos || r.pos == pos + 1
    ensures r.pos <= |input|
    ensures r.err == Some(EOF) <==> pos == |input|
    ensures r.err.Some? ==> r.tok == EMPTY_TOKEN
    ensures r.err.None? && r.done ==> r.tok.kind != TokenNone
    ensures !r.done ==> r.tok == EMPTY_TOKEN
    ensures r.done || r.err.Some? ==> r.next == Start
    ensures r.pos == pos ==> r.err.Some? || r.done || (s == Parabreak && r.next == Start)
    ensures Reachable(cc, s) ==> Reachable(cc, r.next)
    ensures Reachable(cc, s) && r.tok.kind == TokenWord ==> WordText(cc, r.tok.value)
  {
    if pos == |input| then StepResult(Start, EMPTY_TOKEN, false, Some(EOF), pos)
    else
      var c := input[pos];
      match s
      case Start =>
        if c == '{' then StepResult(Start, Token(TokenOpen, ""), true, None, pos + 1)
        else if c == '}' then StepResult(Start, Token(TokenClose, ""), true, None, pos + 1)
        else if c == '\n' then StepResult(Parabreak, EMPTY_TOKEN, false, None, pos + 1)
        else if cc.isSpace(c) then StepResult(Start, EMPTY_TOKEN, false, None, pos + 1)
        else if cc.isPrint(c) then StepResult(Word([c]), EMPTY_TOKEN, false, None, pos + 1)
        else StepResult(Start, EMPTY_TOKEN, true, Some(Naughty(c)), pos + 1)
      case Parabreak =>
        if c == '\n' then StepResult(Start, Token(TokenParabreak, ""), true, None, pos + 1)
        else StepResult(Start, EMPTY_TOKEN, false, None, pos)
      case Word(buf) =>
        if WordRune(cc, c) then StepResult(Word(buf + [c]), EMPTY_TOKEN, false, None, pos + 1)
        else StepResult(Start, Token(TokenWord, buf), true, None, pos)
  }

  /** What a call of `Next` returns, with the reader's position afterwards. */
  datatype Outcome = Outcome(tok: Token, err: Option<Error>, pos: nat)

  /** The loop of `Next`: run state functions until one reports an error or
      `done`. */
  function Run(cc: Classes, input: seq<char>, s: State, pos: nat): (o: Outcome)
    requires pos <= |input|
    ensures pos <= o.pos <= |input|
    ensures o.err.Some? ==> o.tok == EMPTY_TOKEN
    ensures o.err.None? ==> o.tok.kind != TokenNone
    ensures o.err == Some(EOF) ==> o.pos == |input|
    ensures Reachable(cc, s) && o.tok.kind == TokenWord ==> WordText(cc, o.tok.value)
    decreases |input| - pos, Rank(s)
  {
    var r := Step(cc, input, s, pos);
    if r.err.Some? || r.done then Outcome(r.tok, r.err, r.pos)
    else Run(cc, input, r.next, r.pos)
  }

  /** The end of the run of word runes that starts at `p`. */
  function WordEnd(cc: Classes, input: seq<char>, p: nat): (e: nat)
    requires p <= |input|
    ensures p <= e <= |input|
    ensures forall i :: p <= i < e ==> WordRune(cc, input[i])
    ensures e < |input| ==> !WordRune(cc, input[e])
    decreases |input| - p
  {
    if p == |input| || !WordRune(cc, input[p]) then p else WordEnd(cc, input, p + 1)
  }

  /** Reference definition of a `Next` call from the start state, stated on the
      input rather than state by state: a brace is a token on its own, a pair
      of newlines is a paragraph break, a single newline and other spaces are
      skipped, and a printable rune begins a word that is the longest run of
      word runes from there, ended by a rune that is left unread. Running out
      of input anywhere, also inside a word, is the EOF error. */
  function NextToken(cc: Classes, input: seq<char>, p: nat): (o: Outcome)
    requires p <= |input|
    decreases |input| - p
  {
    if p == |input| then Outcome(EMPTY_TOKEN, Some(EOF), p)
    else
      var c := input[p];
      if c == '{' then Outcome(Token(TokenOpen, ""), None, p + 1)
      else if c == '}' then Outcome(Token(TokenClose, ""), None, p + 1)
      else if c == '\n' then
        if p + 1 == |input| then Outcome(EMPTY_TOKEN, Some(EOF), p + 1)
        else if input[p + 1] == '\n' then Outcome(Token(TokenParabreak, ""), None, p + 2)
        else NextToken(cc, input, p + 1)
      else if cc.isSpace(c) then NextToken(cc, input, p + 1)
      else if cc.isPrint(c) then
        var e := WordEnd(cc, input, p + 1);
        if e == |input| then Outcome(EMPTY_TOKEN, Some(EOF), e)
        else Outcome(Token(TokenWord, input[p..e]), None, e)
      else Outcome(EMPTY_TOKEN, Some(Naughty(c)), p + 1)
  }

  /** From a word state, `Next` appends the rest of the run of word runes to the
      buffer and returns it as a word, leaving the terminating rune unread; if
      the run reaches the end of the input the buffered word is dropped and EOF
      returned with the empty token. */
  lemma {:induction false} RunWord(cc: Classes, input: seq<char>, buf: string, p: nat)
    requires p <= |input|
    ensures Run(cc, input, Word(buf), p) ==
      var e := WordEnd(cc, input, p);
      if e == |input| then Outcome(EMPTY_TOKEN, Some(EOF), e)
      else Outcome(Token(TokenWord, buf + input[p..e]), None, e)
    decreases |input| - p
  {
    if p < |input| && WordRune(cc, input[p]) {
      RunWord(cc, input, buf + [input[p]], p + 1);
      var e := WordEnd(cc, input, p + 1);
      assert buf + [input[p]] + input[p + 1..e] == buf + input[p..e];
    } else if p < |input| {
      assert input[p..p] == [];
    }
  }

  /** The state machine, started in `Start`, computes the reference definition. */
  lemma {:induction false} RunIsNextToken(cc: Classes, input: seq<char>, p: nat)
    requires p <= |input|
    ensures Run(cc, input, Start, p) == NextToken(cc, input, p)
    decreases |input| - p
  {
    if p < |input| {
      var c := input[p];
      if c == '{' || c == '}' {
      } else if c == '\n' {
        if p + 1 < |input| && input[p + 1] != '\n' {
          RunIsNextToken(cc, input, p + 1);
        }
      } else if cc.isSpace(c) {
        RunIsNextToken(cc, input, p + 1);
      } else if cc.isPrint(c) {
        RunWord(cc, input, [c], p + 1);
        var e := WordEnd(cc, input, p + 1);
        assert [c] + input[p + 1..e] == input[p..e];
      }
    }
  }

  /** Runes that a `Next` call from `Start` skips before its token: whitespace
      holding no two adjacent newlines (those would be a paragraph break). */
  predicate Gap(cc: Classes, s: seq<char>) {
    && (forall i :: 0 <= i < |s| ==> cc.isSpace(s[i]))
    && (forall i :: 0 <= i < |s| - 1 ==> !(s[i] == '\n' && s[i + 1] == '\n'))
  }

  lemma GapSplit(cc: Classes, input: seq<char>, p: nat, b: nat)
    requires p < b <= |input|
    ensures Gap(cc, input[p..b]) <==>
      && cc.isSpace(input[p])
      && (p + 1 < b ==> !(input[p] == '\n' && input[p + 1] == '\n'))
      && Gap(cc, input[p + 1..b])
  {
  }

  /** Where the token of a successful `Next` call begins. */
  function TokenStart(o: Outcome): int {
    match o.tok.kind
    case TokenOpen => o.pos - 1
    case TokenClose => o.pos - 1
    case TokenParabreak => o.pos - 2
    case TokenWord => o.pos - |o.tok.value|
    case TokenNone => o.pos
  }

  /** What a successful `Next` call from `Start` consumed: a gap, then its
      token, where a word is the whole run of word runes up to a rune that is
      left unread. */
  lemma {:induction false} TokenShape(cc: Classes, input: seq<char>, p: nat)
    requires Sane(cc) && p <= |input|
    requires NextToken(cc, input, p).err.None?
    ensures var o := NextToken(cc, input, p); var b := TokenStart(o);
      && o.tok.kind != TokenNone
      && p <= b < o.pos <= |input|
      && Gap(cc, input[p..b])
      && (o.tok.kind == TokenOpen ==> input[b] == '{' && o.pos == b + 1)
      && (o.tok.kind == TokenClose ==> input[b] == '}' && o.pos == b + 1)
      && (o.tok.kind == TokenParabreak ==>
            o.pos == b + 2 && input[b] == '\n' && input[b + 1] == '\n' && Gap(cc, input[p..b + 1]))
      && (o.tok.kind == TokenWord ==>
            && o.tok.value == input[b..o.pos] && WordText(cc, o.tok.value)
            && o.pos < |input| && !WordRune(cc, input[o.pos]))
    decreases |input| - p
  {
    var c := input[p];
    if (c == '\n' && input[p + 1] != '\n') || (c != '\n' && c != '{' && c != '}' && cc.isSpace(c)) {
      TokenShape(cc, input, p + 1);
      var o := NextToken(cc, input, p + 1);
      var b := TokenStart(o);
      GapSplit(cc, input, p, b);
      if o.tok.kind == TokenParabreak {
        GapSplit(cc, input, p, b + 1);
      }
    } else if c != '\n' && c != '{' && c != '}' {
      assert input[p..p] == [];
      var e := WordEnd(cc, input, p + 1);
      assert forall i :: 0 <= i < e - p ==> input[p..e][i] == input[p + i];
    }
  }

  /** Conversely, a gap is skipped: `Next` from `Start` gives the same as it
      would from the first rune after the gap that is not a space. */
  lemma {:induction false} SkipGap(cc: Classes, input: seq<char>, p: nat, b: nat)
    requires Sane(cc) && p <= b <= |input|
    requires Gap(cc, input[p..b])
    requires b == |input| || !cc.isSpace(input[b])
    ensures NextToken(cc, input, p) == NextToken(cc, input, b)
    decreases b - p
  {
    if p < b {
      GapSplit(cc, input, p, b);
      SkipGap(cc, input, p + 1, b);
    }
  }

  /** A gap followed by two newlines is one paragraph break. */
  lemma {:induction false} SkipGapToParabreak(cc: Classes, input: seq<char>, p: nat, b: nat)
    requires Sane(cc) && p <= b && b + 1 < |input|
    requires input[b] == '\n' && input[b + 1] == '\n'
    requires Gap(cc, input[p..b + 1])
    ensures NextToken(cc, input, p) == Outcome(Token(TokenParabreak, ""), None, b + 2)
    decreases b - p
  {
    if p < b {
      GapSplit(cc, input, p, b + 1);
      SkipGapToParabreak(cc, input, p + 1, b);
    }
  }

  /** In `Start`, within one call of `Next`: a brace is at once a finished
      token, a newline hands over to `Parabreak`, another space is skipped, a
      printable rune seeds a word, and any other rune is an error. */
  lemma StartClasses(cc: Classes, input: seq<char>, p: nat)
    requires p < |input|
    ensures var c := input[p];
      && (c == '{' ==> Run(cc, input, Start, p) == Outcome(Token(TokenOpen, ""), None, p + 1))
      && (c == '}' ==> Run(cc, input, Start, p) == Outcome(Token(TokenClose, ""), None, p + 1))
      && (c == '\n' ==> Run(cc, input, Start, p) == Run(cc, input, Parabreak, p + 1))
      && (c != '{' && c != '}' && c != '\n' && cc.isSpace(c) ==>
            Run(cc, input, Start, p) == Run(cc, input, Start, p + 1))
      && (c != '{' && c != '}' && c != '\n' && !cc.isSpace(c) && cc.isPrint(c) ==>
            Run(cc, input, Start, p) == Run(cc, input, Word([c]), p + 1))
      && (c != '{' && c != '}' && c != '\n' && !cc.isSpace(c) && !cc.isPrint(c) ==>
            Run(cc, input, Start, p) == Outcome(EMPTY_TOKEN, Some(Naughty(c)), p + 1))
  {
  }

  /** In `Parabreak`: a newline completes a paragraph break; any other rune is
      pushed back, so `Start` reads it next at the same position; at the end
      of the input the result is EOF. */
  lemma ParabreakClasses(cc: Classes, input: seq<char>, p: nat)
    requires p <= |input|
    ensures p == |input| ==> Run(cc, input, Parabreak, p) == Outcome(EMPTY_TOKEN, Some(EOF), p)
    ensures p < |input| && input[p] == '\n' ==>
      Run(cc, input, Parabreak, p) == Outcome(Token(TokenParabreak, ""), None, p + 1)
    ensures p < |input| && input[p] != '\n' ==>
      Run(cc, input, Parabreak, p) == Run(cc, input, Start, p)
  {
  }

  /** With the real classes, the lexical error is raised exactly for a rune
      that is neither a space nor printable. */
  lemma NaughtyExactly(cc: Classes, input: seq<char>, p: nat)
    requires Sane(cc) && p < |input|
    ensures Step(cc, input, Start, p).err == Some(Naughty(input[p])) <==>
      !cc.isSpace(input[p]) && !cc.isPrint(input[p])
    ensures Step(cc, input, Start, p).err.None? <==> cc.isSpace(input[p]) || cc.isPrint(input[p])
  {
  }

  /** As written, a word that runs up to the end of the input is not returned:
      the call reports EOF with the empty token. */
  lemma {:induction false} TrailingWordDropped(cc: Classes, input: seq<char>, p: nat, b: nat)
    requires Sane(cc) && p <= b < |input|
    requires Gap(cc, input[p..b])
    requires forall i :: b <= i < |input| ==> WordRune(cc, input[i])
    ensures NextToken(cc, input, p) == Outcome(EMPTY_TOKEN, Some(EOF), |input|)
  {
    SkipGap(cc, input, p, b);
    assert WordEnd(cc, input, b + 1) == |input|;
  }

  /** Classes that satisfy `Sane`, for the examples: blank and newline are the
      spaces, every rune but NUL is printable. */
  const EXAMPLE_CLASSES := Classes(c => c == ' ' || c == '\n', c => c != '\0')

  /** Successive calls of `Next` on "hi {x}\n\nyo", each starting where the
      previous one stopped: the last word is lost at the end of the input. */
  lemma ExampleCalls()
    ensures Sane(EXAMPLE_CLASSES)
    ensures var cc, input := EXAMPLE_CLASSES, "hi {x}\n\nyo";
      && NextToken(cc, input, 0) == Outcome(Token(TokenWord, "hi"), None, 2)
      && NextToken(cc, input, 2) == Outcome(Token(TokenOpen, ""), None, 4)
      && NextToken(cc, input, 4) == Outcome(Token(TokenWord, "x"), None, 5)
      && NextToken(cc, input, 5) == Outcome(Token(TokenClose, ""), None, 6)
      && NextToken(cc, input, 6) == Outcome(Token(TokenParabreak, ""), None, 8)
      && NextToken(cc, input, 8) == Outcome(EMPTY_TOKEN, Some(EOF), 10)
  {
  }

  /** `lexStart`: one rune decides the token, the next state, or the error. */
  method LexStart(rs: PosScanner, cc: Classes) returns (s: State, t: Token, done: bool, err: Option<Error>)
    requires rs.Valid()
    modifies rs, rs.r
    ensures rs.Valid()
    ensures old(rs.Tracking()) ==> rs.Tracking()
    ensures StepResult(s, t, done, err, rs.r.pos) == Step(cc, rs.r.input, Start, old(rs.r.pos))
    ensures rs.r.canUnread <==> rs.r.pos == old(rs.r.pos) + 1
    ensures rs.prev == if old(rs.r.pos) < |rs.r.input| then rs.r.input[old(rs.r.pos)] else old(rs.prev)
    ensures rs.rune == old(rs.rune) + (rs.r.pos - old(rs.r.pos))
    ensures rs.line == old(rs.line) + Newlines(rs.r.input[old(rs.r.pos)..rs.r.pos])
  {
    var r, _, e := rs.ReadRune();
    if e.Some? {
      return Start, EMPTY_TOKEN, false, e;
    }
    if r == '{' {
      s, t, done, err := Start, Token(TokenOpen, ""), true, None;
    } else if r == '}' {
      s, t, done, err := Start, Token(TokenClose, ""), true, None;
    } else if r == '\n' {
      s, t, done, err := Parabreak, EMPTY_TOKEN, false, None;
    } else if cc.isSpace(r) {
      s, t, done, err := Start, EMPTY_TOKEN, false, None;
    } else if cc.isPrint(r) {
      s, t, done, err := Word([r]), EMPTY_TOKEN, false, None;
    } else {
      s, t, done, err := Start, EMPTY_TOKEN, true, Some(Naughty(r));
    }
  }

  /** `lexParabreak`: a second newline is a paragraph break; any other rune is
      pushed back for `lexStart`. The unread's result is ignored, as in the
      source; it cannot fail right after a successful read. */
  method LexParabreak(rs: PosScanner, cc: Classes) returns (s: State, t: Token, done: bool, err: Option<Error>)
    requires rs.Valid()
    modifies rs, rs.r
    ensures rs.Valid()
    ensures old(rs.Tracking()) ==> rs.Tracking()
    ensures StepResult(s, t, done, err, rs.r.pos) == Step(cc, rs.r.input, Parabreak, old(rs.r.pos))
    ensures rs.r.canUnread <==> rs.r.pos == old(rs.r.pos) + 1
    ensures rs.prev == if old(rs.r.pos) < |rs.r.input| then rs.r.input[old(rs.r.pos)] else old(rs.prev)
    ensures rs.rune == old(rs.rune) + (rs.r.pos - old(rs.r.pos))
    ensures rs.line == old(rs.line) + Newlines(rs.r.input[old(rs.r.pos)..rs.r.pos])
  {
    var r, _, e := rs.ReadRune();
    if e.Some? {
      return Start, EMPTY_TOKEN, false, e;
    }
    if r == '\n' {
      return Start, Token(TokenParabreak, ""), true, None;
    }
    var _ := rs.UnreadRune();
    return Start, EMPTY_TOKEN, false, None;
  }

  /** The closure made by `lexWord`, called with the buffer it has filled so
      far: a word rune is appended, anything else is pushed back and ends the
      word. */
  method LexWord(rs: PosScanner, cc: Classes, buf: string) returns (s: State, t: Token, done: bool, err: Option<Error>)
    requires rs.Valid()
    modifies rs, rs.r
    ensures rs.Valid()
    ensures old(rs.Tracking()) ==> rs.Tracking()
    ensures StepResult(s, t, done, err, rs.r.pos) == Step(cc, rs.r.input, Word(buf), old(rs.r.pos))
    ensures rs.r.canUnread <==> rs.r.pos == old(rs.r.pos) + 1
    ensures rs.prev == if old(rs.r.pos) < |rs.r.input| then rs.r.input[old(rs.r.pos)] else old(rs.prev)
    ensures rs.rune == old(rs.rune) + (rs.r.pos - old(rs.r.pos))
    ensures rs.line == old(rs.line) + Newlines(rs.r.input[old(rs.r.pos)..rs.r.pos])
  {
    var r, _, e := rs.ReadRune();
    if e.Some? {
      return Start, EMPTY_TOKEN, false, e;
    }
    if WordRune(cc, r) {
      return Word(buf + [r]), EMPTY_TOKEN, false, None;
    }
    var _ := rs.UnreadRune();
    return Start, Token(TokenWord, buf), true, None;
  }

  /** `lexer`: a position-counting scanner and the current state. */
  class Lexer {
    const r: PosScanner
    const classes: Classes
    var s: State

    ghost predicate Valid()
      reads this, r, r.r
    {
      r.Valid()
    }

    /** `NewLexer`. */
    constructor (src: RuneReader, classes: Classes)
      requires src.Valid()
      ensures Valid() && fresh(r) && r.r == src && this.classes == classes && s == Start
      ensures r.rune == 0 && r.line == 0 && r.prev == '\0'
      ensures src.pos == 0 ==> r.Tracking()
    {
      r := new PosScanner(src);
      this.classes := classes;
      s := Start;
    }

    /** Runs state functions until one is done or fails, and returns its token
        and error. Afterwards the lexer is always back in `Start`. */
    method Next() returns (t: Token, err: Option<Error>)
      requires Valid()
      modifies this, r, r.r
      ensures Valid() && s == Start
      ensures old(r.Tracking()) ==> r.Tracking()
      ensures old(r.r.pos) <= r.r.pos
      ensures r.rune == old(r.rune) + (r.r.pos - old(r.r.pos))
      ensures r.line == old(r.line) + Newlines(r.r.input[old(r.r.pos)..r.r.pos])
      ensures Outcome(t, err, r.r.pos) == Run(classes, r.r.input, old(s), old(r.r.pos))
      ensures old(s) == Start ==> Outcome(t, err, r.r.pos) == NextToken(classes, r.r.input, old(r.r.pos))
    {
      ghost var goal := Run(classes, r.r.input, s, r.r.pos);
      var stop := false;
      t, err := EMPTY_TOKEN, None;
      while !stop
        invariant Valid()
        invariant old(r.Tracking()) ==> r.Tracking()
        invariant old(r.r.pos) <= r.r.pos
        invariant r.rune == old(r.rune) + (r.r.pos - old(r.r.pos))
        invariant r.line == old(r.line) + Newlines(r.r.input[old(r.r.pos)..r.r.pos])
        invariant !stop ==> Run(classes, r.r.input, s, r.r.pos) == goal
        invariant stop ==> s == Start && Outcome(t, err, r.r.pos) == goal
        decreases !stop, |r.r.input| - r.r.pos, Rank(s)
      {
        var next, tok, done, e;
        ghost var before := r.r.pos;
        match s {
          case Start => next, tok, done, e := LexStart(r, classes);
          case Parabreak => next, tok, done, e := LexParabreak(r, classes);
          case Word(buf) => next, tok, done, e := LexWord(r, classes, buf);
        }
        NewlinesSplit(r.r.input, old(r.r.pos), before, r.r.pos);
        s := next;
        if e.Some? || done {
          t, err, stop := tok, e, true;
        }
      }
      if old(s) == Start {
        RunIsNextToken(classes, r.r.input, old(r.r.pos));
      }
    }
  }
}
