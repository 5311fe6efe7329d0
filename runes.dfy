/** Vocabulary shared by the scanner and the lexer: the error values that reach
    the lexer's caller, and the two character classes the lexer consults. */
module Runes {

  datatype Option<T> = None | Some(value: T)

  /** The errors of the front end. Go has one open `error` interface; the only
      values that can occur here are these three. */
  datatype Error =
    | EOF                 // io.EOF from the rune source
    | InvalidUnreadRune   // bufio.ErrInvalidUnreadRune: an unread not right after a read
    | Naughty(r: char)    // "found a naughty character": neither a space nor printable

  /** Stand-ins for `unicode.IsSpace` and `unicode.IsPrint`, whose Unicode tables
      are not part of this model. */
  datatype Classes = Classes(isSpace: char -> bool, isPrint: char -> bool)

  /** The facts about the real Unicode classes that the lemmas rely on. */
  predicate Sane(cc: Classes) {
    && cc.isSpace('\n')
    && cc.isPrint('{') && !cc.isSpace('{')
    && cc.isPrint('}') && !cc.isSpace('}')
  }

  /** Number of bytes of the UTF-8 encoding of `c`, the `size` that
      `ReadRune` reports for a well-formed encoding. */
  function Utf8Len(c: char): (n: nat)
    ensures 1 <= n <= 4
    ensures n == 1 <==> (c as int) < 0x80
    ensures n == 4 <==> 0x10000 <= (c as int)
  {
    if (c as int) < 0x80 then 1
    else if (c as int) < 0x800 then 2
    else if (c as int) < 0x10000 then 3
    else 4
  }
}
