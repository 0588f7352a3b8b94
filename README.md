# Zhurnal gradebook, modelled in Dafny

`zhurnal.go` is an interactive gradebook. It keeps a map from a student's
full name to a record holding the name, the grades in entry order and their
average. Its commands are `add`, `list`, `filter`, `help` and `exit`. This
project models the logic under its terminal plumbing:

- `strconv.dfy` (module `Strconv`) models `strconv.Atoi` as Go implements it on
  a 64-bit platform. It accepts an optional `+`/`-` followed by one or more ASCII
  digits, and the value must fit in a 64-bit `int`; anything else is an error.
  `Itoa`, the decimal rendering, is its inverse for the round-trip lemma.
- `zhurnal.dfy` (module `Zhurnal`) holds the rest:
  - the `Student` record;
  - `calculateAverage`, as a method with a summing loop proved against the
    exact-real `Mean`;
  - the grade-collection loop of `addStudent`, as the method `CollectGrades`
    over tokenised lines, proved equal to the recursive `Collect`;
  - the record store, as the class `Journal` whose `students` map `AddStudent`
    updates in place;
  - `filterStudentsByAvg`, as `FilterStudentsByAvg`;
  - the command dispatch of `main`, as `ParseCommand`.

Input lines reach the model already trimmed and split into tokens; an empty
line is the empty token sequence. When the input is exhausted, Go's
`ReadString` keeps returning an empty string, so the end of input reads as an
empty line. With at least one grade accepted, that ends the collection. With
none, `addStudent` re-prompts for ever. The model reports that case as
`EndOfInput` / `NoGradesBeforeEndOfInput`, and the store is left unchanged.

The `Student` record type would allow an empty grade list, and
`calculateAverage` handles one, but `addStudent` never stores an empty list: an
empty line before the first grade only re-prompts. The model follows the code
here, so `WellFormedStore` requires non-empty grades.

## Model

| member | source | states |
|---|---|---|
| `Strconv.Atoi` | Hurnal-main/zhurnal.go:56 | a successful parse yields a 64-bit value from one or more digits after the optional sign, negative only after a `-`; `AtoiItoa`, `AtoiRejects` and `AtoiSingleDigit` characterise it further |
| `Strconv.AtoiItoa` | Hurnal-main/zhurnal.go:56 | every 64-bit integer parses back from its decimal text (`Atoi(Itoa(n)) == Some(n)`), and the text of any integer outside that range is a range error (`None`) |
| `Strconv.AtoiRejects` | Hurnal-main/zhurnal.go:56-60 | parsing fails on empty text, on a bare sign, and on any character other than a leading sign that is not a decimal digit |
| `Strconv.AtoiSingleDigit` | Hurnal-main/zhurnal.go:56 | a lone decimal digit parses to its value |
| `Strconv.DigitsValue` | Hurnal-main/zhurnal.go:56 | the decimal digits of n are non-empty, all digits, and read back as n |
| `Zhurnal.SumBounds` | Hurnal-main/zhurnal.go:22-25 | the sum of k grades in [1, 5] lies between k and 5k |
| `Zhurnal.MeanInRange` | Hurnal-main/zhurnal.go:22-26 | the average of one or more grades in [1, 5] lies in [1, 5] |
| `Zhurnal.CalculateAverage` | Hurnal-main/zhurnal.go:17-27 | name and grades unchanged; the average is 0 for no grades, otherwise it times the count equals the sum (it is `Mean`) |
| `Zhurnal.Judge` | Hurnal-main/zhurnal.go:56-64 | a token is not a number exactly when `Atoi` fails (a 64-bit overflow included); otherwise it parses to a value that is accepted when in [1, 5] and out of range when not; `KeptGradesMembership` and `MixedLineScenario` show the consequences |
| `Zhurnal.KeptGradesValid` | Hurnal-main/zhurnal.go:54-66 | every grade kept from a line lies in [1, 5], and a line yields at most one grade per token |
| `Zhurnal.KeptGradesMembership` | Hurnal-main/zhurnal.go:55-65 | a value is kept exactly when some token parses to it and it lies in [1, 5]; unparseable and out-of-range tokens are skipped |
| `Zhurnal.KeptGradesAppend` | Hurnal-main/zhurnal.go:55-66 | tokens are judged one after the other: the grades of `a + b` are those of `a` followed by those of `b` |
| `Zhurnal.KeptAllFlatten` | Hurnal-main/zhurnal.go:41-66 | the grades gathered line by line are the in-range, parseable tokens of all lines, in reading order |
| `Zhurnal.KeptAllValid` | Hurnal-main/zhurnal.go:61-65 | every grade gathered over any lines lies in [1, 5] |
| `Zhurnal.KeptAllPrefix` | Hurnal-main/zhurnal.go:65 | grades are only ever appended: those of the first k lines are a prefix of those of all lines |
| `Zhurnal.CollectFromMeaning` | Hurnal-main/zhurnal.go:41-67 | from any line reached without stopping, the loop gives up only if no line has a valid grade; otherwise it stops at the first empty line after a grade (or at end of input), with exactly the grades read |
| `Zhurnal.CollectMeaning` | Hurnal-main/zhurnal.go:41-67 | the collection ends without grades iff no line has a valid grade; otherwise its grades are exactly the valid grades of the lines read, in order, non-empty and all in [1, 5], and it stopped at the first empty line that followed a grade, or at end of input |
| `Zhurnal.AppendGrades` | Hurnal-main/zhurnal.go:54-66 | the token loop over one line appends exactly `KeptGrades(tokens)` to the grades gathered so far |
| `Zhurnal.CollectGrades` | Hurnal-main/zhurnal.go:39-67 | the loop over lines computes `Collect(lines)`, whose meaning `CollectMeaning` states |
| `Zhurnal.Journal.constructor` | Hurnal-main/zhurnal.go:101 | the store starts empty and well formed |
| `Zhurnal.Journal.AddStudent` | Hurnal-main/zhurnal.go:29-77 | an existing name leaves the map untouched; a collection that never ends leaves it untouched; otherwise exactly one key, the name, is added, holding the collected grades and their average, every other entry is unchanged, and a well-formed store stays well formed |
| `Zhurnal.FilterStudentsByAvg` | Hurnal-main/zhurnal.go:79-87 | the result holds exactly the stored students whose average is strictly below the threshold, each stored name once, in some visiting order, so it is no longer than the map |
| `Zhurnal.FilterExtremes` | Hurnal-main/zhurnal.go:79-87 | on a store built by add, a threshold of at most 1 selects nobody and a threshold above 5 selects everybody |
| `Zhurnal.DistinctBound` | Hurnal-main/zhurnal.go:81-84 | a sequence of distinct names drawn from a set is no longer than the set |
| `Zhurnal.ParseCommand` | Hurnal-main/zhurnal.go:111-151 | a recognised command line is exactly that command's keyword; `ParseCommandKeyword` gives the converse |
| `Zhurnal.ParseCommandKeyword` | Hurnal-main/zhurnal.go:111-151 | each command is selected by exactly its keyword; every other trimmed line is an unknown command |
| `Zhurnal.MixedLineScenario` | Hurnal-main/zhurnal.go:54-66 | on `5 x 9 3`, `x` is not a number, `9` is out of range, and `5`, `3` are kept in that order |
| `Zhurnal.SingleLineScenario` | Hurnal-main/zhurnal.go:41-67 | `5 4 3` then an empty line collects `[5, 4, 3]` after two lines, with average 4 |
| `Zhurnal.RepeatedGradeScenario` | Hurnal-main/zhurnal.go:41-67 | `2 2` then an empty line collects `[2, 2]` after two lines, with average 2 |
| `Zhurnal.JournalScenario` | Hurnal-main/zhurnal.go:29-87 | adding Ivanov (5 4 3), then Petrov (2 2), then Petrov again returns `DuplicateName` for the second Petrov; filtering below 3.5 then yields Petrov alone (that the rejected add leaves the store unchanged follows from `AddStudent`'s contract) |

## Left out

- Terminal I/O is not modelled: reading lines from standard input, `strings.TrimSpace`, `strings.Fields`, the prompts and messages, `printStudentInfo`, `printAllStudents` and the help text. Input is given as trimmed, tokenised lines. The `Verdict` of a token records which message it would draw.
- The name line of `add` is not modelled: `AddStudent` receives the trimmed name as a parameter.
- The `list` command is not modelled, because it only prints.
- The main loop's sequencing of commands is not modelled, and neither are its endless "unknown command" output at end of input or the process exit on `exit`. `ParseCommand` models only the dispatch on the trimmed command line.
- Threshold parsing with `strconv.ParseFloat` is not modelled. The threshold is a `real` parameter, so NaN and infinities, and the "invalid threshold" branch, are not modelled.
- CalculateAverage: computes the exact real quotient; float64 rounding is not modelled.
- CalculateAverage: the integer sum is unbounded; Go's 64-bit `int` cannot overflow on grades in [1, 5] before there are about 2^61 of them.
- FilterStudentsByAvg: Go visits the map in an unspecified order. The model picks an arbitrary next key, and its contract fixes only which students come out, once each, not their order.
