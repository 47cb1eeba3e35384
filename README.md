# imex in Dafny

A model of the core of `imex`, a Rust crate that merges several iterators
according to a small pattern language:

- a digit selects a source by index;
- `( … )` groups atoms;
- `*` repeats the preceding value without bound;
- `{n}` repeats it `n` times;
- no suffix means once.

The crate rewrites the same idea several times. This model has one Dafny
member for each rewrite, and proves each of them against one shared
reference.

- **Quantifier countdown** (`Quantifiers`, `Countdowns`). `next` either
  grants a repetition and lowers a finite count, or refuses at `Finite(0)`.
  `Infinite` never changes. The countdown is a class whose method overwrites
  its one field, as `next` overwrites `*self`.
- **Pattern parsers.**
  - `Scanner`: the character-scanning loop of `IMEx::from`, `Pastex::from`,
    `Zprex::from` and `Pattern::from`. These are four textual copies of one
    loop, modelled once as a method with a `for` loop that is proved equal to
    a functional specification.
  - `Combinators` and `Grammar`: the nom combinator grammar, as functions
    on `seq<char>`.
  - `Descent`: the hand-written recursive descent of `src/expression.rs`, as
    methods with loops. Each is proved equal to the grammar on every input.
  - `ScannerProperties`, `GrammarProperties` and `ParserAgreement`: what
    the parsers accept, round trips from the canonical printed form, and
    where the scanner and the grammar differ.
  - `ParserRejections`: every text of the crate's rejection tests, refused
    by the scanner with its exact error where it has one, and by the
    grammar, hence by the recursive descent.
- **Sources** (`Streams`). Each source is a finite sequence with a cursor.
  They are shared by one mutable `Iters` object that is handed down the
  recursion.
- **Merge semantics**. `Semantics` is the reference, using the skip policy:
  a missing or exhausted source gives nothing, and an atom stops at its
  first silent repetition. `Traces` is the same with the error policy: the
  first repetition of a missing index stops everything.
- **Merge evaluators**, each proved against the reference.
  - `Eager`: `Pattern::merge_streams` with `Repeater::repeat` (`Repeater`).
  - `Lazy` and `Iter`: the composed lazy iterators driven by `IMExIter`.
  - `PasteIters`: the explicit `PasteIter` state machine.
  - `LazyEquality`: the hand-written `PartialEq` of the lazy nodes.
- **Entry points** (`Merges`, `Pastes`): default-pattern synthesis and the
  merge and paste wrappers.
- **Round robin** (`RoundRobin`). The documented promise of the rotating
  merge is one item from each source in turn until they are all exhausted.
  It is stated independently as column-by-column interleaving, and proved
  for the rotation over any number of sources.
- **Worked examples**: the crate's test and documentation examples, in
  `MergeCases` and `EntryCases`.

How the evaluators relate:

- The eager evaluator reports the error-policy trace on every input. It
  gives the reference output whenever every index names a source
  (`Eager.AtomsAgree`, `Traces.EagerAtomsReportsTrace`).
- The lazy iterator hands out exactly the reference output on every input
  (`Iter.IMExIter.Next`, `Iter.IMExIter.Collect`).
- `PasteIter` hands out the error-policy trace
  (`PasteIters.PasteIter.Next`). When every index is in range, that trace is
  the reference output (`Traces.AtomsTraceIsDen`).

The scanner keeps the digits read inside braces for the whole sequence and
never clears them. So in `1{2}3{4}` the second count is 24, where the
grammar reads 4 (`ParserAgreement.BraceDigitsAccumulate`). The model keeps
this behaviour. The parsers are proved to agree on canonical text with at
most one braced count per nesting level. That covers every accepted example
in the crate's tests except `0{3}1(01){5}`, which has two braced counts at
the top level. There the scanner reads the group's count as 35 and the
grammar reads 5 (`ParserAgreement.TwoCountsAccumulate`). The `PasteIter`
test of src/paste_iter.rs:119-127 goes through the scanner, so it sees
count 35. Its expected output "00010101010101" holds all the same: after
five rounds both sources are used up, and the sixth repetition of `(01)` is
silent, which ends the group whatever count is left
(`MergeCases.CountedGroupMerge`, `MergeCases.PasteCountedGroup`). Every
text of the rejection tests is refused by both parsers
(`ParserRejections`).

The scanner also lets a later quantifier overwrite an earlier one on the
same value: `1**` and `1{2}*` both scan as `1*`, while the grammar reads
one quantifier per value and refuses both texts
(`ParserRejections.DoubleQuantifier`). The model keeps this behaviour too.

## Model

| member | source | states |
|---|---|---|
| Quantifiers.Next | src/quantifier.rs:14-23 | a repetition is granted exactly when the quantifier is not `Finite(0)`; the variant never changes; a finite count drops by one exactly when a repetition is granted |
| Quantifiers.FiniteGrantsExactly | src/quantifier.rs:30-40 | `Finite(n)` grants exactly `n` repetitions, then refuses every later call |
| Quantifiers.StaysExhausted | src/quantifier.rs:16 | `Finite(0)` refuses every call and stays `Finite(0)` |
| Quantifiers.InfiniteGrantsAlways | src/quantifier.rs:21 | `Infinite` grants every call |
| Countdowns.Countdown.Next | src/expression/quantifier.rs:21-30 | the in-place `next`: the flag and the new field value are those of the countdown function on the old value |
| Countdowns.ThreeIteratesThrice | src/expression/quantifier.rs:58-68 | `Finite(3)` grants three times, passing through `Finite(2)`, `Finite(1)` and `Finite(0)`, then refuses |
| Countdowns.ZeroGivesNone | src/quantifier.rs:42-46 | `Finite(0)` refuses at once |
| Countdowns.InfiniteIteratesALot | src/quantifier.rs:48-55 | `Infinite` grants 100 calls in a row and stays `Infinite` |
| Numerals.DigitChar | src/merges.rs:51-54 | writing a digit and reading it back gives the same value |
| Numerals.ValueOfDecimal | src/merges.rs:51-54 | reading back the decimal text of `n` gives `n` |
| Scanner.TopStep | src/imex.rs:46-85 | one character outside parentheses keeps the brace buffer digits; its rules hold in every context: digits inside braces are buffered (`ScannerProperties.DigitsPhase`), printed values and quantifiers are read back (`ScannerProperties.ScanPrintedVal`, `ScannerProperties.ScanPrintedQuantifier`), only alphabet characters are accepted (`ScannerProperties.ScanAcceptsOnlyAlphabet`), and the error rules are `ScannerProperties.LeadingStarFails`, `LeadingBracesFail`, `NonDigitInBracesFails` and `ForeignCharFails` |
| Scanner.Step | src/imex.rs:30-45 | keeps the brace buffer digits and grows the group text by at most one character; while the depth stays positive every character is collected and the depth tracked (`ScannerProperties.ParenPhase`, `ScannerProperties.RunBalanced`), and the closing parenthesis appends the scanned group with count 1 (`ScannerProperties.ScanPrintedVal`) |
| Scanner.Finish | src/imex.rs:88-94 | after the last character the scan succeeds exactly when no parenthesis and no brace is open, with the atoms read; an open parenthesis is reported first |
| Scanner.Scan | src/imex.rs:20-98 | the empty text gives no atoms; every canonical text is read back (`ScannerProperties.ScanPrintRoundTrip`), and only alphabet text with balanced parentheses is accepted (`ScannerProperties.ScanAcceptsOnlyAlphabet`, `ScannerProperties.ScanAcceptsOnlyBalanced`) |
| Scanner.ScanPattern | src/imex.rs:20-98 | the scanning loop returns exactly the functional scanner's result, error cases included |
| Scanner.PatternFrom | src/pattern.rs:18-98 | `Pattern::from` succeeds exactly when the scan does, and gives one top-level group with count 1 holding exactly the scanned atoms |
| ScannerProperties.ScanAcceptsOnlyAlphabet | src/imex.rs:82-84 | an accepted pattern contains only digits, parentheses, braces and stars |
| ScannerProperties.ForeignCharFails | src/imex.rs:82-84 | at depth zero outside braces a character outside the alphabet is a `BadChar` error, whatever follows |
| ScannerProperties.NonDigitInBracesFails | src/imex.rs:46-65 | at depth zero, a braced count with anything but digits before its `}` is an error naming the first such character |
| ScannerProperties.LeadingStarFails | src/imex.rs:76-81 | a pattern starting with `*` is a `BadStarTarget` error |
| ScannerProperties.LeadingBracesFail | src/imex.rs:49-56 | a pattern starting with a braced count has no atom for it: a `BadBraceTarget` error |
| ScannerProperties.ScanForeignChar | src/imex.rs:82-84 | after any prefix read to depth zero outside braces, a foreign character makes the whole scan a `BadChar` error |
| ScannerProperties.ScanNonDigitInBraces | src/imex.rs:46-65 | after any prefix read to depth zero outside braces, a non-digit inside the next braces makes the whole scan fail, naming it |
| ScannerProperties.ScanAcceptsOnlyBalanced | src/imex.rs:88-94 | an accepted pattern has balanced parentheses |
| ScannerProperties.RunBalanced | src/imex.rs:30-45 | without error, the depth counter is the parenthesis balance of the text read, and never negative |
| ScannerProperties.ParenPhase | src/imex.rs:30-45 | while the depth stays positive every character is collected as group text |
| ScannerProperties.DigitsPhase | src/imex.rs:46-48 | inside braces digits are appended to the count buffer |
| ScannerProperties.ScanPrintedQuantifier | src/imex.rs:49-56 | reading a printed quantifier sets the last atom's count |
| ScannerProperties.ScanPrintedVal | src/imex.rs:30-45 | reading a printed value appends that value with count 1 |
| ScannerProperties.ScanPrintedAtoms | src/imex.rs:66-85 | reading printed atoms appends exactly those atoms, in order |
| ScannerProperties.ScanPrintRoundTrip | src/imex.rs:20-98 | the scanner reads back the canonical text of every expression with at most one braced count per level |
| Combinators.Char | src/expression/parsers.rs:26 | `char(c)` succeeds exactly on input starting with `c` and consumes it |
| Combinators.OneDigit | src/expression/parsers.rs:35 | `one_of` digits succeeds exactly on a leading digit and consumes it |
| Combinators.Digit1 | src/expression/parsers.rs:16 | `digit1` takes the longest non-empty digit run |
| Combinators.DigitRun | src/expression/parsers.rs:16 | the length of the leading digit run: every character before it is a digit, and the one after it is not |
| Combinators.Delimited | src/expression/parsers.rs:16 | `delimited` succeeds only on input starting with the opening character, with the inner parser's value, the inner parser's leftover being the closing character followed by what is returned |
| Combinators.Opt | src/expression/parsers.rs:16 | `opt` never fails; it returns the parser's value, or nothing with no input consumed |
| Combinators.Alt | src/expression/parsers.rs:31 | `alt` returns the first parser's success, otherwise the second parser's result on the same input |
| Combinators.Many0 | src/expression/parsers.rs:64 | `many0` never leaves more input than it was given |
| Combinators.ManyTill | src/expression/parsers.rs:59 | `many_till` always consumes its closing character |
| Combinators.AllConsuming | src/expression/parsers.rs:64 | `all_consuming` succeeds exactly when the parser succeeds and leaves no input |
| Combinators.Many0Step | src/expression/parsers.rs:64 | a successful `many0` step prepends its value |
| Combinators.ManyTillStep | src/expression/parsers.rs:59 | a `many_till` step before the closing character prepends its value |
| Grammar.ParseInfiniteQuantifier | src/expression/quantifier.rs:43-46 | `*` is read as `Infinite` exactly when the input starts with `*`, consuming that one character |
| Grammar.ParseFiniteQuantifier | src/expression/quantifier.rs:33-41 | never fails and always gives a finite count; without a leading `{` it is `Finite(1)` with nothing consumed (the braced case: `GrammarProperties.QuantifierSpec`, `GrammarProperties.BracedCount`) |
| Grammar.ParseQuantifier | src/expression/parsers.rs:30-32 | the quantifier parser never fails and never lengthens the input |
| Grammar.ParseSingle | src/expression/parsers.rs:34-40 | a single value is read exactly when the input starts with a digit; it names that digit's source and consumes only the digit |
| Grammar.ParseGroup | src/expression/parsers.rs:42-46 | a group is read only from a leading `(`, gives a `Group` and consumes input; it reads back every printed group (`GrammarProperties.GrammarRoundTrip`) |
| Grammar.ParseVal | src/expression/parsers.rs:48-50 | a value read from a leading digit is a `Single`, from a leading `(` a `Group`, and input is consumed (printed values read back: `GrammarProperties.GrammarRoundTrip`) |
| Grammar.ParseQIV | src/expression/parsers.rs:52-56 | a quantified value starts with a digit or `(` and consumes input; only balanced text is accepted (`GrammarProperties.GrammarAcceptsOnlyBalanced`) |
| Grammar.ParseInner | src/expression/parsers.rs:58-61 | a group body consumes input, through its closing parenthesis |
| Grammar.ParseImex | src/expression/parsers.rs:63-66 | a successful parse leaves no input |
| GrammarProperties.QuantifierSpec | src/expression/quantifier.rs:33-51 | `*` gives `Infinite` and consumes one character; `{digits}` gives `Finite` of their value through the `}`; anything else gives `Finite(1)` and consumes nothing |
| GrammarProperties.BracedCount | src/expression/quantifier.rs:34-38 | `{d}` followed by anything is `Finite(value of d)`, with exactly the rest left |
| GrammarProperties.MalformedBraces | src/expression/quantifier.rs:39 | `{*5}` and `{}` are `Finite(1)` with nothing consumed |
| GrammarProperties.PrintedQuantifier | src/expression/parsers.rs:15-32 | a printed quantifier is read back |
| GrammarProperties.GrammarRoundTrip | src/expression/parsers.rs:63-66 | the grammar reads back every printed expression exactly |
| GrammarProperties.GrammarAcceptsOnlyAlphabet | src/expression/parsers.rs:63-66 | the grammar accepts only digits, parentheses, braces and stars |
| GrammarProperties.GrammarAcceptsOnlyBalanced | src/expression/parsers.rs:58-66 | an accepted pattern has balanced parentheses |
| GrammarProperties.InnerClosesGroup | src/expression/parsers.rs:58-61 | a group body that parses ends just after a `)`, and the text before that `)` is balanced, so the `)` closes the group |
| GrammarProperties.UnclosedGroupFails | src/expression/parsers.rs:58-61 | a group body in which no `)` closes the group fails |
| GrammarProperties.Many0Leftover | src/expression/parsers.rs:64 | `many0` of quantified values always succeeds, leaving what is left once values can no longer be read |
| GrammarProperties.ImexAcceptsIffNoLeftover | src/expression/parsers.rs:63-66 | the whole parse succeeds exactly when reading values one after another uses up the text |
| Descent.ParseValue | src/expression.rs:14-30 | `IMExVal::parse` returns exactly the grammar's value parse: digit, group or error |
| Descent.ParseQuantified | src/expression.rs:42-46 | `QuantifiedIMExVal::parse` returns exactly the grammar's quantified-value parse |
| Descent.ParseInParens | src/expression.rs:69-84 | `parse_in_parens` returns exactly the grammar's group body parse, so it fails on a group that is never closed (`GrammarProperties.UnclosedGroupFails`) |
| Descent.ParseAll | src/expression.rs:86-101 | `parse` returns exactly the all-consuming grammar parse, so it accepts only balanced parentheses (`GrammarProperties.GrammarAcceptsOnlyBalanced`) |
| Descent.From | src/expression.rs:65-67 | `IMEx::from` succeeds exactly when the grammar does, with its atoms |
| ParserAgreement.ParsersAgree | src/imex.rs:113-196 | on canonical text with one braced count per level, the scanner and the grammar (hence the descent) give the same tree |
| ParserAgreement.ParsersRejectForeignChars | src/imex.rs:198-214 | a character outside the alphabet makes both parsers fail |
| ParserAgreement.RepeatsExample | src/imex.rs:113-139 | `13{3}9*1` gives atoms 1, 3{3}, 9*, 1 in every parser |
| ParserAgreement.GroupsExample | src/imex.rs:141-196 | `1(1)(9)*(4){4}(1(1))()` gives the nested tree the tests expect in every parser |
| ParserAgreement.BraceDigitsAccumulate | src/imex.rs:46-56 | the scanner reads `1{2}3{4}` with a second count of 24, the grammar with 4 |
| ParserAgreement.TwoCountsAccumulate | src/imex.rs:46-56 | the scanner reads `0{3}1(01){5}` (the pattern of the iterator tests) with the group's count 35, the grammar with 5 |
| ParserAgreement.EmptyBraces | src/imex.rs:49-56 | `1{}` reaches the empty count in the scanner; the grammar rejects the text |
| ParserAgreement.BadRepeatTargets | src/imex.rs:234-245 | `*2` and `{4}4` are rejected by both parsers |
| ParserRejections.ParsersRejectUnbalanced | src/imex.rs:66-96 | a text whose parentheses do not balance is rejected by both parsers |
| ParserRejections.TooManyClosedParens | src/imex.rs:208-214 | `0(1)2)3(4)5`, `0{1}2}3{4}5` and `0(1)2(3))` are rejected by both parsers; the stray `}` is a bad character to the scanner |
| ParserRejections.TooManyOpenParens | src/imex.rs:217-225 | `0(1)2(3(4)5`, `0{1}2{3{4}5`, `0{1}23{4}5{6` and `((0)1(2)3` are rejected by both parsers, the brace cases with the scanner's exact error |
| ParserRejections.MismatchedParens | src/imex.rs:228-232 | `)(` and `(3{)}` are rejected by both parsers; in `(3{)}` the group's scan ends inside an open brace |
| ParserRejections.BadRepeatTargetsInGroups | src/imex.rs:235-245 | `(*4)`, `({6}6)` and `5{*5}` are rejected by both parsers: a count at the head of a group has no target, and `*` is not a digit inside braces |
| ParserRejections.BadRepeatBracketContents | src/imex.rs:248-254 | `5{5*}`, `6{(6)}` and `7{7{7}}` are rejected by both parsers, the scanner naming the first non-digit inside the braces |
| ParserRejections.DoubleQuantifier | src/imex.rs:49-78 | the scanner reads `1**` and `1{2}*` as `1*`, the later quantifier overwriting the earlier; the grammar rejects both |
| ParserAgreement.EmptyPattern | src/pattern.rs:150-162 | `Pattern::from("")` is one empty group with count 1 |
| Streams.Fresh | src/iter.rs:48-53 | sources before any reading keep their data, with every cursor at 0 |
| Streams.Pull | src/expression/imex_val.rs:35-37 | the next item of an available source, which moves on by one; otherwise nothing and no change |
| Streams.Iters.Next | src/expression/imex_val.rs:35-37 | the in-place read: an item exactly when source `i` is available, the one under its cursor |
| Streams.ConsumedTrans | src/pattern.rs:131-135 | what two stretches of reading consume adds up |
| Semantics.DenAtoms | src/expression/imex.rs:89-105 | sources keep their number, and they lose exactly as many items as are output |
| Semantics.SingleReps | src/pattern.rs:110-118 | `Single(i)` takes successive items of source `i` until it is exhausted or the count is reached; no other source moves |
| Semantics.OutOfRangeSkipped | src/expression/imex_val.rs:37 | an index with no source outputs nothing and moves nothing |
| Semantics.ZeroCountSilent | src/repeater.rs:36-40 | with a zero count the value is never evaluated |
| Semantics.AtomsConsume | src/pattern.rs:112-115 | every output item is consumed from exactly one source, in that source's order |
| Semantics.Split | src/pattern.rs:130-136 | evaluating two atom sequences in a row is evaluating their concatenation |
| Repeater.Repeat | src/repeater.rs:29-46 | `Finite(n)` calls at most `n` times and `Finite(0)` never; every call but the last continued; the loop stops after the first `false` (counted) or the first error (returned) |
| Repeater.InfiniteRepeatsUntilFalse | src/repeater.rs:52-68 | `Infinite` keeps calling until the first `false` |
| Repeater.FiniteRepeatsUntilEndOfRange | src/repeater.rs:83-98 | a count of 10 stops the loop after 10 calls |
| Repeater.FiniteRepeatsUntilFalse | src/repeater.rs:70-81 | the first `false` ends the loop and is counted |
| Repeater.FiniteZeroNeverRuns | src/repeater.rs:130-145 | a zero count never calls the operation |
| Repeater.ErrorStopsAtOnce | src/repeater.rs:42 | an error is returned at the call that raised it |
| Eager.EagerReps | src/pattern.rs:111-138 | an error names an index with no source; otherwise the sources lose exactly the items output |
| Eager.AtomsAgree | src/pattern.rs:100-143 | when every index names a source, the eager result is the reference output and sources |
| Eager.MissingSourceFails | src/pattern.rs:119-124 | a `Single` naming a missing source fails as soon as its count lets it run, and only then |
| Eager.MergeStreams | src/pattern.rs:100-143 | `merge_streams` returns exactly the eager outcome and leaves the sources it states |
| Eager.MergeOnce | src/pattern.rs:111-125 | one call of the repeated operation, with its outcome |
| Eager.MergeGroupOnce | src/pattern.rs:128-137 | one pass over a group, each inner pattern in turn, the first error passed on |
| Traces.TraceAtoms | src/paste_iter.rs:38-102 | a trace's error names an index with no source; the sources lose exactly the items output |
| Traces.EagerAtomsReportsTrace | src/pattern.rs:100-143 | the eager evaluator reports the error-policy trace: its error alone, or its output and sources |
| Traces.AtomsTraceIsDen | src/paste_iter.rs:52-88 | with every index in range the trace has no error and is the reference output |
| Lazy.RepeatAtom | src/expression/quantified_imex_val.rs:29-37 | `repeat` is granted exactly when the count is not zero, lowers it, and installs a fresh clone of the value with counter 0; otherwise nothing changes |
| Lazy.FreshVal | src/expression/quantified_imex_val.rs:32 | a fresh clone has the value's full height |
| Lazy.IterateVal | src/expression/imex_val.rs:28-43 | a `Single` gives at most one item in its lifetime, the next of its source (none if missing); a group delegates; the item is the first of what was pending |
| Lazy.IterateCounter | src/expression/utils.rs:14-25 | the item is passed through, and the counter rises by one exactly on an item |
| Lazy.IterateAtom | src/expression/quantified_imex_val.rs:50-73 | the item is the first pending one; a repetition that gave nothing ends the atom whatever count is left |
| Lazy.IterateImex | src/expression/imex.rs:89-105 | the item is the first pending one; atoms are taken left to right; `None` exactly when nothing is pending, with no atom left |
| Lazy.NewImexPending | src/expression/imex.rs:35-40 | a new `IMEx` has no active atom and the whole output of its atoms pending |
| Lazy.Repeated | src/expression/quantified_imex_val.rs:60 | after a productive repetition `repeat` leaves the same output pending; with no count left nothing is |
| Lazy.CounterSilent | src/expression/quantified_imex_val.rs:59-62 | a repetition that gave nothing ends the atom |
| Iter.IMExIter.constructor | src/iter.rs:48-53 | a new iterator owns fresh sources, with the whole merge pending |
| Iter.IMExIter.New | src/iter.rs:48-53 | `new` fails exactly when the pattern does not parse; otherwise the merge of the parsed tree is pending |
| Iter.IMExIter.Next | src/iter.rs:62-64 | `next` yields the first pending item and leaves the rest pending, or `None` exactly when nothing is pending |
| Iter.IMExIter.Collect | src/iter.rs:56-64 | `collect` yields exactly the reference output |
| Iter.NothingToMerge | src/iter.rs:121-139 | with every source empty, or none at all, the merge is empty |
| LazyEquality.EqVal | src/expression/imex_val.rs:18-26 | equal values are both Singles or both groups, and equal Singles hold the same index; on parsed values it is equality of trees (`LazyEquality.EqValIsIdentity`), reflexive and symmetric (`LazyEquality.EqValReflexive`, `LazyEquality.EqValSymmetric`) |
| LazyEquality.EqImex | src/expression/imex.rs:27-32 | equal `IMEx` states have as many unstarted atoms; equality ignores the atom in progress (`LazyEquality.EqImexIgnoresProgress`) |
| LazyEquality.EqAtoms | src/expression/imex.rs:29-30 | equal atom vectors have the same length and the same first count; on unstarted atoms it is sequence equality (`LazyEquality.EqAtomsIsIdentity`) |
| LazyEquality.EqAtom | src/expression/imex.rs:29-30 | equal unstarted atoms have the same count and the same kind of value |
| LazyEquality.EqValIsIdentity | src/expression/imex_val.rs:18-26 | on parsed values the crate's equality is equality of trees: Singles by index, groups structurally, a Single never equals a group |
| LazyEquality.EqAtomsIsIdentity | src/expression/imex.rs:27-32 | on unstarted atoms equality is equality of sequences |
| LazyEquality.EqImexIgnoresProgress | src/expression/imex.rs:27-32 | two `IMEx` states are equal exactly when their unstarted atoms are the same |
| LazyEquality.EqValReflexive | src/expression/imex_val.rs:18-26 | value equality is reflexive |
| LazyEquality.EqValSymmetric | src/expression/imex_val.rs:18-26 | value equality is symmetric |
| PasteIters.StartPending | src/paste_iter.rs:21-29 | a fresh evaluator has nothing active and its atoms' whole trace pending |
| PasteIters.Handed | src/paste_iter.rs:38-102 | a `next` result is the first pending item, else the pending error, else `None` |
| PasteIters.InnerEmits | src/paste_iter.rs:41-46 | an inner item is handed out and raises the flag |
| PasteIters.InnerDone | src/paste_iter.rs:47-49 | a finished inner evaluator is dropped with nothing pending lost |
| PasteIters.AtomEmits | src/paste_iter.rs:55-58 | an available source hands out its next item and the count goes down |
| PasteIters.SingleExhausted | src/paste_iter.rs:59-61 | an exhausted source drops the atom |
| PasteIters.SingleMissing | src/paste_iter.rs:62-67 | a missing source makes the error all that is pending |
| PasteIters.GroupRepeats | src/paste_iter.rs:69-79 | a group after a productive repetition starts a fresh inner evaluator with the flag down |
| PasteIters.GroupStops | src/paste_iter.rs:80-82 | a group whose last repetition produced nothing is dropped, whatever count is left |
| PasteIters.Exhausted | src/paste_iter.rs:85-87 | an atom with no count left is dropped |
| PasteIters.Loads | src/paste_iter.rs:90-96 | loading the next atom (a group primes the flag) changes nothing pending |
| PasteIters.Finished | src/paste_iter.rs:97-99 | nothing active and nothing to load means nothing is pending |
| PasteIters.Step | src/paste_iter.rs:38-102 | one pass of `next` hands out the first pending item, or the pending error, or `None` once nothing is pending |
| PasteIters.Resume | src/paste_iter.rs:41-50 | the inner evaluator's item or error is handed on; once finished it is dropped |
| PasteIters.Attempt | src/paste_iter.rs:52-88 | one repetition attempt on the atom in progress, with every branch of the source |
| PasteIters.PasteIter.constructor | src/paste_iter.rs:21-29 | a new evaluator has its atoms' whole trace pending over fresh sources |
| PasteIters.PasteIter.From | src/paste_iter.rs:21-29 | `from` fails exactly when the scanner rejects the pattern |
| PasteIters.PasteIter.Next | src/paste_iter.rs:38-102 | `next` hands out the first pending item, or the error, or `None` when done |
| Merges.SourceCount | src/merges.rs:49 | the number of sources, truncated to eight bits |
| Merges.DigitAtoms | src/merges.rs:49-56 | a digit string reads as one single atom per digit, in order |
| Merges.DefaultParses | src/merges.rs:49-57 | both parsers read the default pattern as the default tree for every source count, so it never fails to parse |
| Merges.DefaultPrinted | src/merges.rs:49-56 | the default pattern is the printed form of the default tree |
| Merges.DefaultInRange | src/pastes.rs:14-21 | the default pattern only names sources that exist |
| Merges.DefaultRotates | src/merges.rs:31-33 | with at most ten sources the default tree is the rotation of all sources |
| Merges.RoundTakesEach | src/merges.rs:31-33 | one rotation round takes the item under each cursor, in source order, and moves every cursor by one |
| Merges.ElevenSourcesSkipLast | src/merges.rs:49-56 | with eleven sources the default tree reads sources 1 and 0 twice per round and never source 10 |
| Merges.SourceVec.Drain | src/merges.rs:112-113 | `append` hands every source over in order and leaves the vector empty |
| Merges.ImexMergeAll | src/merges.rs:111-115 | `self` becomes source 0, the others follow in order and are drained; fails exactly when the pattern does not parse |
| Merges.RotMergeAll | src/merges.rs:45-58 | the merge of the default tree over all sources is pending, and it always parses |
| Merges.ImexMerge | src/merges.rs:77-82 | `imex_merge_all` with the one other source |
| Merges.AltMerge | src/merges.rs:98-104 | the merge of `(01)*` over the two sources is pending |
| Merges.AltParses | src/merges.rs:102 | `(01)*` is the default pattern for two sources and parses as the alternation |
| RoundRobin.ColumnEmpty | src/merges.rs:31-32 | a column of the interleaving is empty exactly when its index reaches the length of the longest source |
| RoundRobin.Turn | src/merges.rs:31-32 | a source's turn in a round yields its next item if it has one, and otherwise yields nothing and leaves every source as it was |
| RoundRobin.Round | src/merges.rs:31-32 | one round of the rotation yields the column of next items, in source order, passing over exhausted sources |
| RoundRobin.Settled | src/merges.rs:31-32 | once the longest source is used up every source is drained |
| RoundRobin.Rounds | src/merges.rs:31-32 | the repeated rotation yields the remaining columns one after another and stops with every source drained |
| RoundRobin.RotationInterleaves | src/merges.rs:31-32 | the rotation of any number of sources, repeated, yields their round-robin interleaving and exhausts them all |
| RoundRobin.DefaultInterleaves | src/merges.rs:45-57 | `rot_merge_all` over at most ten sources yields their round-robin interleaving |
| RoundRobin.ThreeSourcesInterleave | src/merges.rs:38-43 | `rot_merge_all` of "1234" with "abcdefg" and "!@#" yields "1a!2b@3c#4defg" |
| Pastes.Pastex | src/pastes.rs:46-50 | `self` becomes source 0, the others follow and are drained; fails exactly when the scanner rejects the pattern |
| Pastes.Paste | src/pastes.rs:10-24 | the default pattern never errors, and the paste hands out exactly the rotating merge |
| Pastes.PastexBoth | src/pastes.rs:26-31 | `pastex` with the one other source |
| Pastes.PasteBoth | src/pastes.rs:33-39 | `(01)*` over the two sources, with no error |
| MergeCases.SkipMerge | src/iter.rs:101-109 | `0120` over "000" and "111" gives "010", the missing source being skipped |
| MergeCases.LazySkips | src/iter.rs:101-109 | `IMExIter::new` with the pattern `0120` over two sources yields "010" |
| MergeCases.RepeatedGroupMerge | src/iter.rs:71-79 | `01(10){3}` over "00000" and "11111" gives "01101010" |
| MergeCases.LazyRepeatsGroup | src/iter.rs:71-79 | `IMExIter::new` with the pattern `01(10){3}` yields "01101010" |
| MergeCases.PasteRepeatsGroup | src/paste_iter.rs:109-117 | `PasteIter::from` with the pattern `01(10){3}` has "01101010" pending and no error |
| MergeCases.CountedRounds | src/expression/quantified_imex_val.rs:59-62 | `(01){n}` over "00000000" and "111111" after `0{3}1`: the rounds left while both sources have items, then the silent repetition ends the group whatever count is left |
| MergeCases.CountedGroupMerge | src/iter.rs:81-89 | `0{3}1(01){n}` over "00000000" and "111111" gives "00010101010101" for every count from 5 on, so for the grammar's 5 and the scanner's 35 |
| MergeCases.LazyCountedGroup | src/iter.rs:81-89 | `IMExIter::new` with the pattern `0{3}1(01){5}` yields "00010101010101" |
| MergeCases.PasteCountedGroup | src/paste_iter.rs:119-127 | `PasteIter::from` with `0{3}1(01){5}` reads count 35 and still has "00010101010101" pending, with no error |
| MergeCases.MissingThird | src/paste_iter.rs:139-151 | the trace of `0120` over two sources is "01", then the error for index 2 |
| MergeCases.OutOfRangeFails | src/paste_iter.rs:139-151 | `PasteIter::from` with `0120` over two sources: the third result is the error for index 2 |
| MergeCases.EagerFailsOnMissing | src/pattern.rs:119-124 | the eager evaluator reports index 2 for `0120` over two sources |
| EntryCases.AltExample | src/merges.rs:90-96 | `(01)*` over "12" and "ab" gives "1a2b" |
| EntryCases.LazyAlternates | src/merges.rs:90-96 | `alt_merge` of "12" and "ab" yields "1a2b" |
| EntryCases.PasteAlternates | src/pastes.rs:84-89 | `paste_both` of "12" and "ab" has "1a2b" pending and no error |
| EntryCases.DrainBoth | src/merges.rs:67-75 | `0*1*` over "12345" and "ab" gives "12345ab" |
| EntryCases.LazyDrainsInOrder | src/merges.rs:67-75 | `imex_merge` of "12345" and "ab" with the pattern `0*1*` yields "12345ab" |

## Left out

- `src/zipper.rs`: it does not compile and has no coherent behaviour.
- `src/main.rs`: command-line parsing, files and line buffering are I/O.
- `src/lib.rs` and `src/expression/mod.rs` hold only declarations.
- The `Repeator` trait and its stub iterator (src/repeater.rs:9-26) always return nothing and are unused.
- The commented-out `merge_iters` of src/zprex.rs is not code.
- Debug `println!` output.
- The `Rc<RefCell<…>>` sharing of sources is one `Iters` object handed down the recursion, since every access is sequential.
- nom error values, `convert_error` and the `panic!` at src/expression/imex.rs:80 are reduced to success or failure.
- Error messages are not modelled: a scanner error is a `ScanError` case, and an evaluator error is the offending index.
- Source iterators and `Borrow<str>` are finite sequences with cursors. Lines are not converted to strings.
- `Numerals.Value`: `parse::<usize>` overflow on huge counts is not modelled, because counts are unbounded naturals.
- `Lazy.IterateCounter`: the `u32` counter is a natural, so its overflow is not modelled.
- `Repeater.Repeat`: the operation is the sequence of its results. With `Infinite` the loop is required to meet a `false` or an error, which is the case for every operation the crate passes. The side effects of the closure are in `Eager.MergeStreams`.
- `Scanner.Scan`: the panic on an empty `{}` is the error `EmptyCount`.
- `PasteIters.PasteIter.Next`: after it hands out an error, the items the crate would still hand out are not described.
- `Lazy.IterateImex` works on the state as a value that is taken and returned, not a boxed node updated in place. Each node has one owner, so no aliasing is lost.
- `0*(12)*` and `0(1120)*` are not worked out as concrete examples. The general theorems cover them.

## Findings

| source | as written | input that shows it | evidently intended | confidence | as-written member | corrected member |
|---|---|---|---|---|---|---|
| src/merges.rs:49-56, src/pastes.rs:14-20 | the default pattern writes every index in decimal, so from 11 sources on the numeral `10` is scanned as the two digits 1 and 0; at 256 sources the `u8` count wraps to 0 | 10 other iterators (11 sources): the pattern `(012345678910)*` reads sources 1 and 0 twice per round and never reads source 10 | every source read once per round, in index order | not executed | Merges.ElevenSourcesSkipLast | RoundRobin.RotationInterleaves |
