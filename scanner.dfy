/** The rune-level cursor under the lexer: a rune source with one-rune pushback
    (the `io.RuneScanner`, in practice a `bufio.Reader`) and `posScanner`, which
    wraps it and counts runes and lines for diagnostics. */
module Scanner {
  import opened Runes

  /** Number of newline runes in `s`. */
  function Newlines(s: seq<char>): nat {
    if s == [] then 0
    else Newlines(s[..|s| - 1]) + (if s[|s| - 1] == '\n' then 1 else 0)
  }

  lemma NewlinesSnoc(s: seq<char>, i: nat)
    requires i < |s|
    ensures Newlines(s[..i + 1]) == Newlines(s[..i]) + (if s[i] == '\n' then 1 else 0)
  {
    assert s[..i + 1][..i] == s[..i];
  }

  lemma {:induction false} NewlinesBound(s: seq<char>)
    ensures Newlines(s) <= |s|
  {
    if s != [] {
      NewlinesBound(s[..|s| - 1]);
    }
  }

  /** The newlines of a slice are those of its two halves. */
  lemma {:induction false} NewlinesSplit(s: seq<char>, a: nat, b: nat, c: nat)
    requires a <= b <= c <= |s|
    ensures Newlines(s[a..c]) == Newlines(s[a..b]) + Newlines(s[b..c])
    decreases c
  {
    if b == c {
      assert s[a..c] == s[a..b];
    } else {
      NewlinesSplit(s, a, b, c - 1);
      assert s[a..c][..c - a - 1] == s[a..c - 1];
      assert s[b..c][..c - b - 1] == s[b..c - 1];
    }
  }

  /** The rune source: already decoded input, a cursor, and whether the last
      operation was a successful read (the only time an unread is allowed). */
  class RuneReader {
    const input: seq<char>
    var pos: nat
    var canUnread: bool

    ghost predicate Valid()
      reads this
    {
      pos <= |input| && (canUnread ==> 0 < pos)
    }

    constructor (input: seq<char>)
      ensures Valid()
      ensures this.input == input && pos == 0 && !canUnread
    {
      this.input := input;
      pos := 0;
      canUnread := false;
    }

    /** Reads the next rune; at the end of the input reports EOF with the zero
        rune and size 0, and forbids a following unread. */
    method ReadRune() returns (r: char, size: nat, err: Option<Error>)
      requires Valid()
      modifies this
      ensures Valid()
      ensures err.None? <==> old(pos) < |input|
      ensures err.None? ==>
        r == input[old(pos)] && size == Utf8Len(r) && pos == old(pos) + 1 && canUnread
      ensures err.Some? ==>
        err == Some(EOF) && r == '\0' && size == 0 && pos == old(pos) && !canUnread
    {
      if pos == |input| {
        r, size, err := '\0', 0, Some(EOF);
        canUnread := false;
      } else {
        r := input[pos];
        size, err := Utf8Len(r), None;
        pos := pos + 1;
        canUnread := true;
      }
    }

    /** Steps back over the rune just read; fails, changing nothing, unless the
        previous operation was a successful read. */
    method UnreadRune() returns (err: Option<Error>)
      requires Valid()
      modifies this
      ensures Valid() && !canUnread
      ensures err.None? <==> old(canUnread)
      ensures err.None? ==> pos == old(pos) - 1
      ensures err.Some? ==> err == Some(InvalidUnreadRune) && pos == old(pos)
    {
      if !canUnread {
        err := Some(InvalidUnreadRune);
      } else {
        pos := pos - 1;
        canUnread := false;
        err := None;
      }
    }
  }

  /** `posScanner`: a rune source with a rune counter, a line counter and the
      last rune read. */
  class PosScanner {
    const r: RuneReader
    var rune: int
    var line: int
    var prev: char

    ghost predicate Valid()
      reads this, r
    {
      r.Valid()
    }

    /** The counters describe the reader's position: `rune` runes and `line`
        newlines lie before the cursor, and the rune an unread would give back
        is `prev`. */
    ghost predicate Tracking()
      reads this, r
    {
      && r.Valid()
      && rune == r.pos
      && line == Newlines(r.input[..r.pos])
      && (r.canUnread ==> prev == r.input[r.pos - 1])
    }

    constructor (r: RuneReader)
      requires r.Valid()
      ensures Valid() && this.r == r
      ensures rune == 0 && line == 0 && prev == '\0'
      ensures r.pos == 0 ==> Tracking()
    {
      this.r := r;
      rune, line, prev := 0, 0, '\0';
    }

    method ReadRune() returns (ch: char, size: nat, err: Option<Error>)
      requires Valid()
      modifies this, r
      ensures Valid()
      ensures err.None? <==> old(r.pos) < |r.input|
      ensures err.None? ==>
        && ch == r.input[old(r.pos)] && size == Utf8Len(ch)
        && r.pos == old(r.pos) + 1 && r.canUnread
        && prev == ch
        && rune == old(rune) + 1
        && line == old(line) + (if ch == '\n' then 1 else 0)
      ensures err.Some? ==>
        && err == Some(EOF) && ch == '\0' && size == 0
        && r.pos == old(r.pos) && !r.canUnread
        && rune == old(rune) && line == old(line) && prev == old(prev)
      ensures old(Tracking()) ==> Tracking()
    {
      ch, size, err := r.ReadRune();
      if err.Some? {
        return;
      }
      prev := ch;
      rune := rune + 1;
      if ch == '\n' {
        line := line + 1;
      }
      NewlinesSnoc(r.input, r.pos - 1);
    }

    method UnreadRune() returns (err: Option<Error>)
      requires Valid()
      modifies this, r
      ensures Valid() && !r.canUnread && prev == old(prev)
      ensures err.None? <==> old(r.canUnread)
      ensures err.None? ==>
        && r.pos == old(r.pos) - 1
        && rune == old(rune) - 1
        && line == old(line) - (if prev == '\n' then 1 else 0)
      ensures err.Some? ==>
        err == Some(InvalidUnreadRune) && r.pos == old(r.pos) && rune == old(rune) && line == old(line)
      ensures old(Tracking()) ==> Tracking()
    {
      err := r.UnreadRune();
      if err.Some? {
        return;
      }
      rune := rune - 1;
      if prev == '\n' {
        line := line - 1;
      }
      NewlinesSnoc(r.input, r.pos);
    }
  }

  /** While the counters track the cursor, `Line` never exceeds `Rune`. */
  lemma LineAtMostRune(ps: PosScanner)
    requires ps.Tracking()
    ensures 0 <= ps.line <= ps.rune
  {
    NewlinesBound(ps.r.input[..ps.r.pos]);
  }

  /** A read followed at once by an unread leaves the cursor and both counters
      as they were; after a failed read the unread fails too. */
  method ReadThenUnread(ps: PosScanner) returns (readErr: Option<Error>, unreadErr: Option<Error>)
    requires ps.Valid()
    modifies ps, ps.r
    ensures ps.Valid()
    ensures unreadErr.None? <==> readErr.None?
    ensures ps.r.pos == old(ps.r.pos) && ps.rune == old(ps.rune) && ps.line == old(ps.line)
    ensures old(ps.Tracking()) ==> ps.Tracking()
  {
    var ch, size;
    ch, size, readErr := ps.ReadRune();
    unreadErr := ps.UnreadRune();
  }
}
