# stkup front end: scanner and lexer

stkup turns a small markup language (whitespace-separated words, blank-line
paragraph breaks, `{command arg ...}` blocks) into PostScript. This project
models its front end in `parse.go`:

- **`posScanner`**: wraps a rune source that allows one rune of pushback. It
  keeps a rune counter `Rune`, a line counter `Line` and the last rune read,
  `prev`. Here it is the class `Scanner.PosScanner`. The rune source itself
  (a `bufio.Reader` behind `io.RuneScanner`) is `Scanner.RuneReader`. It holds
  already decoded input, a cursor, and a flag that says whether an unread is
  allowed, which is true only right after a successful read.
- **The lexer**: three states, `lexStart`, `lexParabreak` and the closure
  returned by `lexWord`. These are the datatype `Lexing.State` (`Start`,
  `Parabreak`, `Word(buf)`); `Word` carries the buffer the closure captured.
  Each state function is a method that reads through the scanner:
  `Lexing.LexStart`, `Lexing.LexParabreak`, `Lexing.LexWord`. `lexer.Next` is
  `Lexing.Lexer.Next`, a loop that keeps calling the current state function
  until one reports `done` or an error.

Every lexer method is proved against pure functions:

- `Lexing.Step` is one state-function call on the input and the cursor.
- `Lexing.Run` is the whole loop of `Next`.
- `Lexing.NextToken` is a reference definition written on the input instead
  of state by state: skip a gap of whitespace, then read one token.
  `Lexing.RunIsNextToken` proves that the state machine computes it.
- `Lexing.TokenShape` and `Lexing.SkipGap` / `Lexing.SkipGapToParabreak` give
  the two directions of what one `Next` call consumes. It consumes a gap: only
  spaces, with no two adjacent newlines. Then it consumes one token: a brace,
  two newlines, or a maximal run of word runes whose terminator is left unread.

`unicode.IsSpace` and `unicode.IsPrint` live in code outside this model. They
are a parameter `Runes.Classes` holding two predicates on runes. The facts the
lemmas need from the real tables are collected in `Runes.Sane`: `'\n'` is a
space, and `'{'` and `'}'` are printable and not spaces.

The counters agree with the cursor: `PosScanner.Tracking` says `Rune` is the
number of runes consumed, `Line` the number of newlines among them, and `prev`
the rune an unread would give back. Every scanner and lexer method preserves
it.

Two behaviours of the code are worth naming:

- **End of input inside a word.** A word that runs up to the end of the input
  is not returned. The `lexWord` closure (parse.go:120-123) returns the read
  error with the empty token, and the buffer is dropped.
  `Lexing.RunWord`, `Lexing.TrailingWordDropped` and `Lexing.ExampleCalls`
  state this.
- **Counter start.** `Line` and `Rune` start at 0, the zero values of
  `posScanner{r:r}` (parse.go:67).

## Model

| member | source | states |
|---|---|---|
| Scanner.RuneReader.ReadRune | parse.go:20 | the rune source. Before the end it returns the next rune and its UTF-8 size, advances one rune and allows an unread. At the end it returns EOF with rune 0 and size 0, does not move, and forbids an unread |
| Scanner.RuneReader.UnreadRune | parse.go:33 | steps back one rune exactly when the last operation was a successful read; otherwise it returns ErrInvalidUnreadRune and changes nothing. Either way a second unread is forbidden afterwards |
| Scanner.PosScanner.constructor | parse.go:12-17 | a new scanner over a reader has Rune = 0, Line = 0 and prev = 0; over a reader still at its start, the counters track the cursor |
| Scanner.PosScanner.ReadRune | parse.go:19-30 | on success: the next rune of the input, Rune + 1, Line + 1 exactly when the rune is a newline, prev = that rune. On error: the error is passed through and Rune, Line, prev are unchanged. Counter tracking is preserved |
| Scanner.PosScanner.UnreadRune | parse.go:32-42 | if the underlying unread succeeds: cursor - 1, Rune - 1, Line - 1 exactly when prev is a newline, prev kept. If it fails: the error is returned and the counters and cursor do not change. Counter tracking is preserved |
| Scanner.ReadThenUnread | parse.go:19-42 | an unread just after a read restores the cursor, Rune and Line; it succeeds exactly when the read did. Counter tracking is preserved |
| Scanner.LineAtMostRune | parse.go:24-28 | while the counters track the cursor, 0 <= Line <= Rune |
| Lexing.Step | parse.go:80-134 | one state-function call consumes at most one rune. It reports EOF exactly at the end of the input. An error comes with the empty token. A finished call without error has a real token, and tokens only come with `done`. Every finished or failed call returns to the start state. Staying in place happens only on error, on `done`, or on Parabreak to Start (the pushed-back rune). Word buffers stay non-empty words of word runes |
| Lexing.Run | parse.go:70-78 | the loop of `Next` ends. Without an error its token is Open, Close, Parabreak or Word, never tokenNone. With an error the token is empty, and EOF leaves the cursor at the end. A Word token's value is non-empty and holds only printable runes that are not spaces or braces |
| Lexing.WordEnd | parse.go:125-127 | every rune from the start up to the returned index is a word rune, and the rune at that index (if any) is not: the run is maximal |
| Lexing.RunWord | parse.go:115-134 | from a word state, `Next` appends the whole remaining run of word runes to the buffer and returns it as a Word, with the terminating rune unread. If the run reaches the end of input it returns EOF with the empty token, dropping the buffer |
| Lexing.RunIsNextToken | parse.go:70-134 | the state machine started in lexStart returns exactly the reference tokenisation `NextToken` (token, error and final cursor) |
| Lexing.TokenShape | parse.go:80-134 | a successful `Next` call from start consumes a gap of whitespace with no two adjacent newlines, then its token. The token is `{` for Open, `}` for Close, two newlines for Parabreak, or, for Word, a value equal to the consumed run of word runes, non-empty, followed by an unread rune that is not a word rune |
| Lexing.SkipGap | parse.go:86-113 | conversely, a gap of whitespace with no two adjacent newlines, followed by a non-space or the end of input, is skipped: `Next` gives the same result as from the first rune after it |
| Lexing.SkipGapToParabreak | parse.go:91-113 | a gap followed by two newlines yields exactly one Parabreak token, and both newlines are consumed |
| Lexing.StartClasses | parse.go:80-100 | in lexStart: `{` ends `Next` with Open and `}` with Close, one rune consumed. A newline moves to lexParabreak with no token. Other whitespace is skipped in lexStart. Another printable rune starts a word seeded with that rune. Anything else ends `Next` with the naughty-character error |
| Lexing.ParabreakClasses | parse.go:102-113 | in lexParabreak a newline ends `Next` with one Parabreak token. Any other rune is pushed back, so lexStart reads it next at the same position. At the end of input the result is EOF |
| Lexing.NaughtyExactly | parse.go:86-99 | with the real character classes, the lexical error happens exactly for a rune that is neither a space nor printable |
| Lexing.TrailingWordDropped | parse.go:119-123 | as written: when a word runs up to the end of the input, that `Next` call returns EOF with the empty token instead of the word |
| Lexing.ExampleCalls | parse.go:70-134 | successive `Next` calls on `hi {x}` newline newline `yo` give Word "hi", Open, Word "x", Close, Parabreak, then EOF: the final word is lost |
| Lexing.LexStart | parse.go:80-100 | the lexStart state function computes `Step` from Start through the scanner. Rune grows by the runes consumed and Line by the newlines among them, and the counters keep tracking the cursor |
| Lexing.LexParabreak | parse.go:102-113 | the lexParabreak state function computes `Step` from Parabreak. The non-newline rune really is unread, so the cursor and Rune go back by one. Rune and Line grow by exactly the runes and newlines consumed |
| Lexing.LexWord | parse.go:115-134 | the lexWord closure, given its buffer, computes `Step` from Word(buffer). It appends a word rune; otherwise it unreads the terminator and returns the Word token. Rune and Line grow by exactly the runes and newlines consumed |
| Lexing.Lexer.constructor | parse.go:66-68 | NewLexer: a fresh scanner over the source, zero counters, state lexStart |
| Lexing.Lexer.Next | parse.go:70-78 | returns exactly what `Run` gives from the previous state and cursor, and so `NextToken` when that state was lexStart. The lexer is left in lexStart. Rune grows by the runes consumed and Line by the newlines among them, whatever the counters were before. Counters that tracked the cursor still do |

## Left out

- layout.go: page geometry and font metrics are `float64`, `Print` renders a
  `text/template`, and its `main` repeats main.go's.
- main.go: process plumbing (stdin, stdout, stderr, exit status). It calls a
  parser and an emitter that are not defined in the files modelled, so
  neither is modelled.
- The Unicode tables behind `unicode.IsSpace` and `unicode.IsPrint` are not
  part of this model. They are the parameter `Runes.Classes`, constrained by
  `Runes.Sane` only where a lemma needs it.
- UTF-8 decoding in `bufio.Reader`: the input is a sequence of already decoded
  runes, so the replacement rune for invalid bytes does not arise. The only
  read error is EOF. Other I/O errors would take the same paths.
- `bytes.Buffer` becomes the string carried by the `Word` state. The buffer
  is built as runes, not as UTF-8 bytes.
- The error message text of the naughty-character error is reduced to the
  rune it names (`Naughty(r)`).
- Lexing.Lexer.Next: does not state the reader's unread flag or `prev` after
  the call. The step methods state both for each state-function call.
