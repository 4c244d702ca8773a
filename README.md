# Tokenize: the parenthesis scanner of a Lox interpreter front end

This project models the `tokenize` command of a small interpreter front-end program. The command reads a source file and makes one pass over its characters from left to right. For each `(` it prints `LEFT_PAREN ( null`, and for each `)` it prints `RIGHT_PAREN ) null`. Every other character is skipped: it prints nothing and reports no error. At the end the command prints `EOF  null` (kind, an empty lexeme, then `null`, hence the two spaces). If the file is empty, a separate branch prints only the end-of-file line.

The model is one Dafny module, `Tokenize` (`tokenize.dfy`):

- `CharLines`, `ScanLines` and `Tokens` are the specification. They are pure recursive functions from the file contents to the printed lines.
- `TokenizeFile` is the imperative command body. It has the same empty/non-empty branch as the source, and its cursor loop appends to an output sequence that stands for `console.log`. Its postcondition proves it equal to `Tokens`. A ghost out-parameter records each cursor position at which a character was read.
- The lemmas state what the printed output means: the end-of-file sentinel, the number of lines of each kind, the total count, the order, compositionality, and that other characters are skipped.

## Model

| member | source | states |
|---|---|---|
| `Tokenize.TokenizeFile` | app/main.js:23-37 | the lines printed by the loop-and-branch program are exactly `Tokens(fileContent)`; the empty-file branch prints only `EOF  null`, which is what the loop would give; the cursor reads every position `0 .. |fileContent|-1` exactly once, in increasing order |
| `Tokenize.ScanLines` | app/main.js:25-33 | the loop prints at most one line per character, and every line it prints is a left- or right-paren line |
| `Tokenize.Tokens` | app/main.js:25-36 | the output always ends with `EOF  null`, and that line appears nowhere earlier |
| `Tokenize.LineFor` | app/main.js:28-31 | `(` is printed as `LEFT_PAREN ( null` and `)` as `RIGHT_PAREN ) null` (each in both directions) |
| `Tokenize.CharLines` | app/main.js:28-32 | one loop iteration prints `LEFT_PAREN ( null` exactly when the character is `(`, `RIGHT_PAREN ) null` exactly when it is `)`, and nothing, with no error, exactly when it is any other character |
| `Tokenize.ScanLinesAppend` | app/main.js:25-33 | scanning is compositional: the lines for `a + b` are the lines for `a` followed by the lines for `b` |
| `Tokenize.TokensAppend` | app/main.js:25-34 | the full output for `a + b` is the scan lines of `a` followed by the full output for `b` |
| `Tokenize.ParenCounts` | app/main.js:28-34 | the output has as many left-paren lines as the input has `(`, as many right-paren lines as it has `)`, and exactly one `EOF  null` |
| `Tokenize.ScanLineCounts` | app/main.js:28-33 | the loop's lines contain one left-paren line per `(`, one right-paren line per `)`, and no end-of-file line |
| `Tokenize.TokensLength` | app/main.js:25-34 | the number of output lines is the count of `(` plus the count of `)` plus one |
| `Tokenize.OtherCharacterSkipped` | app/main.js:28-32 | inserting any character other than `(` or `)` anywhere in the input leaves the output unchanged; no character is rejected |
| `Tokenize.OtherCharacterScansNothing` | app/main.js:28-32 | the same for the loop's lines: a character other than `(` or `)` contributes no line wherever it stands |
| `Tokenize.NoParensOnlyEof` | app/main.js:28-34 | an input without parentheses (including the empty file) prints only `EOF  null` |
| `Tokenize.TokensFollowParenOrder` | app/main.js:25-31 | order is preserved: the i-th line before `EOF  null` is the line for the i-th parenthesis of the input, with positions strictly increasing and every parenthesis position included |
| `Tokenize.ScanFollowsPositions` | app/main.js:25-31 | the same correspondence for the suffix of the input from any cursor position `k` |

## Left out

- Argument handling and the usage errors that exit with status 1 (app/main.js:3-16): process plumbing outside the scanner.
- Reading the file (app/main.js:21): I/O. The file contents are the method's input string.
- Printing to standard output: each `console.log` call is modelled as appending its line to the output sequence.
- Character width: JavaScript indexes UTF-16 code units, and a Dafny `char` is a Unicode scalar value. This changes no output line, because `(` and `)` are single code units and no surrogate half equals either of them. It does change the cursor: in `TokenizeFile`, the cursor positions and the ghost `visited` trace count scalar values. A character outside the Basic Multilingual Plane, such as an emoji, takes two loop iterations in the source and one in the model.
- Other lexer rules: operators, strings, numbers, identifiers, keywords, line numbers and "Unexpected character" errors. There is also no parser and no evaluator. The source file implements none of these.
