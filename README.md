# Advent of Code 2023 solvers, modelled in Dafny

This project models the puzzle solvers of an Advent of Code 2023 repository written in Rust. The repository has one `main.rs` per puzzle part, named `dayNNa` and `dayNNb`. Each Dafny file models one of them and is named after it, for example `day16b.dfy` with module `Day16b`. Shared helpers live in `common.dfy`.

The centrepiece is the day 20 pulse network.

- `day20a.dfy` holds the modules:
  - flip-flops and conjunctions are classes whose `Process` methods update their state or memory in place;
  - the broadcaster and the output sinks are plain values;
  - `SimulateButtonPress` drains a FIFO queue of `(from, to, pulse)` signals and counts the low and high pulses.

  Each in-place operation is proved against a value-level reference. `Run` is the whole press as a function: it delivers pulses one at a time and keeps a queue. The network's invariants are proved to be preserved: the catalogue of names, the wiring, and the conjunctions' memories keyed by exactly their senders.
- `day20_config.dfy` holds the configuration lines. Parsing is proved to invert rendering.
- `day20a_load.dfy` and `day20b.dfy` hold the two loaders. They declare the modules, add an `Output` sink for every undeclared output, and register each conjunction's inputs.
- `day20a_solution.dfy` holds the thousand-press tally.

The other days model each solver's kernel, with these conventions:

- **Panics.** A Rust panic (an `unwrap` on nothing, an index out of range, `unreachable!`, a failed `assert`) becomes the `Panic` case of `Common.Result`. Callers get no precondition for it, and the contracts say when the panic happens.
- **Unbounded loops.** Some loops are not proved to end:
  - the walks of day 8, which need not end;
  - the workflow passes of day 19, which need not end;
  - the pulse queue of day 20, which need not end;
  - the walk round the day 10 loop, which does end (it comes back to the start or panics within one more turn than the field has cells), but whose termination is not proved here.

  These take either a ghost `bound` with a precondition that the walk ends within it, or a `fuel` parameter with a separate "ran out" outcome.
- **Hash order.** `HashMap` and `HashSet` iteration order becomes an arbitrary choice (`:|`). The contracts hold for every choice, and so for every order.
- **Input.** Most solutions take the lines of the input text. Some start from records that are already parsed:
  - where the source parses with a regular expression: the draws of day 2, the node records of day 8, and the workflows and ratings of day 19;
  - where the source's own splitting and number parsing are taken as given: the cards of day 4 (winning and owned numbers), the seed values and range maps of day 5, the blank-line-separated blocks of day 13, and the character grid of day 16.

The model follows the code at three points where the network's usual description says otherwise:

- The broadcaster ignores pulses delivered to it (day20a/src/main.rs:215). Only the button makes it send.
- `Output` does nothing when it is reached.
- No period finder exists for part two. day20b/src/main.rs:131 prints that there is no computed solution.

## Model

| member | source | states |
|---|---|---|
| Common.SplitOnce | day20a/src/main.rs:105 | `str::split_once`: on success the two halves around the pattern rebuild the line and the pattern occurs nowhere inside the first half; None exactly when the pattern does not occur |
| Common.SplitOnceAfter | day20a/src/main.rs:105 | a line made of a pattern-free head, the pattern and a tail splits into exactly that head and tail |
| Common.JoinSplit | day20a/src/main.rs:106 | `str::split` loses nothing: joining the pieces with the separator gives back the text |
| Common.SplitJoin | day20a/src/main.rs:106 | joining separator-free pieces and splitting again gives back the same pieces |
| Common.IndexOf | day01b/src/main.rs:24 | `str::find`: the result is an occurrence of the pattern with none earlier; None means the pattern occurs nowhere |
| Common.LastIndexOf | day01b/src/main.rs:28 | `str::rfind`: the result is an occurrence of the pattern with none later; None means the pattern occurs nowhere |
| Day01a.FindDigit | day01a/src/main.rs:7 | `find(char::is_numeric)`: the index holds a numeral and there is none before it; None exactly when the line has no numeral |
| Day01a.RFindDigit | day01a/src/main.rs:10 | `rfind(char::is_numeric)`: the index holds a numeral and there is none after it; None exactly when the line has no numeral |
| Day01a.FindAfterPrefix | day01a/src/main.rs:7 | the leftmost numeral is the first one after a numeral-free prefix, whatever follows |
| Day01a.RFindBeforeSuffix | day01a/src/main.rs:10 | the rightmost numeral is the last one before a numeral-free suffix, whatever precedes |
| Day01a.OutermostDigits | day01a/src/main.rs:6-14 | a line's value is 10 · its leftmost numeral + its rightmost numeral, whatever lies between them |
| Day01a.SingleDigit | day01a/src/main.rs:6-14 | a line with one numeral x has the value 11 · x |
| Day01a.PanicsWithoutDigit | day01a/src/main.rs:7-11 | the `unwrap`s panic exactly on a line without a numeral |
| Day01a.Solution | day01a/src/main.rs:4-16 | the answer panics exactly when some line's value panics, that is when some line has no numeral |
| Day01a.SolutionSums | day01a/src/main.rs:4-16 | the answer panics exactly when some line has no numeral, and otherwise is the sum of the line values |
| Day01b.ReplacementsWellFormed | day01b/src/main.rs:1-11 | the table of spelled-out digits: every word starts with a letter, has at least two letters, maps to a numeral, and no two words share their first two letters |
| Day01b.WordAt | day01b/src/main.rs:22-31 | some word of the table from position k on starts at index i exactly when the result is Some of its numeral |
| Day01b.WordIsDigitAt | day01b/src/main.rs:22-31 | a word of the table found at index i is the digit read at i: no other word can start there |
| Day01b.FirstFrom | day01b/src/main.rs:22-45 | the least index from i on at which a numeral or a word starts, with no digit between |
| Day01b.LastBefore | day01b/src/main.rs:22-45 | the greatest index below n at which a numeral or a word starts, with no digit after it |
| Day01b.WordDigits | day01b/src/main.rs:1-11 | every digit read, spelled out or not, is a numeral |
| Day01b.PushFirst | day01b/src/main.rs:24-26 | pushing the first occurrence of word k keeps every gathered entry a true digit and records that occurrence |
| Day01b.PushLast | day01b/src/main.rs:28-30 | pushing the last occurrence of word k keeps every gathered entry a true digit and records that occurrence |
| Day01b.Numbers | day01b/src/main.rs:20-42 | the `numbers` vector: every entry is a digit at its index; it holds the first and last occurrence of every word and of the numerals |
| Day01b.Extremes | day01b/src/main.rs:44-48 | sorting by index and taking `first`/`last`: entries of least and greatest index; None (the `unwrap` panic) exactly when nothing was gathered |
| Day01b.FirstIsLeftmost | day01b/src/main.rs:34-47 | the gathered entry of least index is the leftmost digit of the line |
| Day01b.LastIsRightmost | day01b/src/main.rs:39-48 | the gathered entry of greatest index is the rightmost digit of the line |
| Day01b.LineCalibration | day01b/src/main.rs:16-50 | the closure's value equals the reference value: 10 · leftmost digit + rightmost digit, Panic when there is none |
| Day01b.PanicsWithoutDigit | day01b/src/main.rs:47-48 | a line panics exactly when no numeral or word starts anywhere in it |
| Day01b.SumCalibrations | day01b/src/main.rs:14-52 | the sum over lines equals the reference sum, which panics when some line does |
| Day01b.SumWithStep | day01b/src/main.rs:52 | one more line adds its value to the sum, or makes it panic |
| Day01b.Solution | day01b/src/main.rs:13-53 | `solution` computes the reference answer over the table of the nine words |
| Day01b.NoWordNearEnd | day01b/src/main.rs:1-11 | no word of three or more letters fits in the last two characters of a line |
| Day01b.Outermost | day01b/src/main.rs:44-50 | the value depends only on the outermost digits p and q, whatever lies between them |
| Day01b.Overlapping | day01b/src/main.rs:17 | overlapping words both count: "eightwo" reads 8 then 2, value 82 |
| Day02a.AbsentIsZero | day02a/src/main.rs:24-28 | `map_or(0, ...)`: a colour the draw does not mention counts 0 cubes, a mentioned one its captured count |
| Day02a.GameIdOf | day02a/src/main.rs:17-18 | a line `Game <n>: ...` has id n |
| Day02a.ShortHeadPanics | day02a/src/main.rs:18 | `parts[0][5..]` panics when the text before the colon is shorter than five characters |
| Day02a.Possible | day02a/src/main.rs:35 | `all(...)`: true exactly when every draw has at most 12 red, 13 green and 14 blue cubes |
| Day02a.SolutionOne | day02a/src/main.rs:34-40 | one game contributes its id when possible and 0 otherwise |
| Day02a.SolutionAppend | day02a/src/main.rs:41 | the answer adds up over consecutive stretches of games |
| Day02a.Solution | day02a/src/main.rs:34-41 | the answer never exceeds the sum of all game ids |
| Day02a.SolutionAtMostIds | day02a/src/main.rs:34-41 | when every game is possible the answer is exactly the sum of all ids |
| Day02a.ImpossibleCostsItsId | day02a/src/main.rs:34-41 | an impossible game with a positive id makes the answer fall short of the sum of ids |
| Day02b.Minimum | day02b/src/main.rs:33-35 | the per-colour maxima hold every draw and each is attained by some draw; `max().unwrap()` panics exactly on a game without draws |
| Day02b.MinimumIsLeast | day02b/src/main.rs:32-35 | the maxima are the least cube counts with which every draw is possible |
| Day02b.BelowMinimumFails | day02b/src/main.rs:32-35 | fewer cubes of any colour than the maximum make some draw impossible |
| Day02b.AbsentColourPowerZero | day02b/src/main.rs:38 | a colour no draw shows makes the power 0 |
| Day02b.MinimumFitsIffPossible | day02b/src/main.rs:33-35 | the game is possible in the part-one bag exactly when its maxima fit in it |
| Day02b.Solution | day02b/src/main.rs:31-40 | the sum of powers panics exactly when some game has no draw |
| Day02b.SolutionAppend | day02b/src/main.rs:40 | the answer adds up over consecutive stretches of games |
| Day03a.RunEnd | day03a/src/main.rs:36-38 | the inner `while` stops just past the run: every column before the end is a digit, the end is the line's end or a non-digit |
| Day03a.RunsFromMaximal | day03a/src/main.rs:27-54 | every run the scan finds is a maximal run of digits |
| Day03a.RunsFromComplete | day03a/src/main.rs:27-54 | every maximal run of digits is found by the scan |
| Day03a.RunsFromOrdered | day03a/src/main.rs:27-54 | the runs are found left to right, separated by at least one non-digit |
| Day03a.RunsInside | day03a/src/main.rs:40 | every run lies inside its line, so the slice `line[start..colno]` is in bounds |
| Day03a.MaximalRunIsPart | day03a/src/main.rs:40-53 | every maximal run of a line becomes a part on that line with the value its digits denote |
| Day03a.PartIsMaximalRun | day03a/src/main.rs:40-53 | every part of a line comes from a maximal run and carries the value its digits denote |
| Day03a.LinePanics | day03a/src/main.rs:43-44 | a line's scan panics exactly when some run denotes a number that does not fit in a `u32` |
| Day03a.ScanLine | day03a/src/main.rs:26-54 | the scan loop of one line computes the line's parts, as characterised above |
| Day03a.SkipRun | day03a/src/main.rs:36-38 | the inner loop ends at the end of the run |
| Day03a.FindParts | day03a/src/main.rs:22-55 | the scan over every line gathers all lines' parts in order, or panics when some line does |
| Day03a.AllPartsPanicStays | day03a/src/main.rs:25 | a panicking line makes the whole scan panic, whatever follows |
| Day03a.NearSymbol | day03a/src/main.rs:59-76 | the `retain` closure returns true exactly when a symbol lies in the box around the part |
| Day03a.KeptExactly | day03a/src/main.rs:59-76 | a part is kept exactly when it is one of the parts and lies next to a symbol |
| Day03a.RetainNearSymbol | day03a/src/main.rs:59 | `retain` keeps the parts next to a symbol, in their order |
| Day03a.Solution | day03a/src/main.rs:16-79 | `solution` is the sum of the values of the kept parts, or a panic from the scan |
| Day03a.NoSymbolNoParts | day03a/src/main.rs:59-76 | a schematic without symbols keeps no part |
| Day03b.InStarsInBox | day03b/src/main.rs:63-69 | a cell is visited as a '*' of a part's box exactly when it lies in the box and holds '*' on the schematic |
| Day03b.TouchedStep | day03b/src/main.rs:70-75 | one more '*' cell: its entry starts at (1, val) or has its count raised by one and its product multiplied by val; no other entry changes |
| Day03b.AddRow | day03b/src/main.rs:64-78 | one row of the box walk records exactly the '*' cells of that row |
| Day03b.AddPart | day03b/src/main.rs:63-79 | the walk of one part's box records every '*' cell of the box, once each |
| Day03b.FillGears | day03b/src/main.rs:56-80 | the `gears` map after all parts equals the reference table |
| Day03b.GearsClosed | day03b/src/main.rs:56-80 | a cell has an entry exactly when some part touches it, and the entry is (number of parts touching it, product of their values) |
| Day03b.CountInCounts | day03b/src/main.rs:71 | an entry's count is the number of parts whose box holds the cell |
| Day03b.UntouchedProduct | day03b/src/main.rs:72-74 | a cell touched by no part has the empty product 1 |
| Day03b.RatioOfGear | day03b/src/main.rs:84-91 | a '*' cell adds the product of its numbers when exactly two touch it, and nothing otherwise |
| Day03b.SumRatios | day03b/src/main.rs:82-93 | the `filter_map`/`sum` over the map is the sum of the ratios, whatever order the map yields its entries in |
| Day03b.Solution | day03b/src/main.rs:14-94 | `solution` is the sum of the gear ratios of the cells, or a panic from the scan |
| Day04a.Matches | day04a/src/main.rs:22-26 | the number of owned numbers found in the winning set: at most the count owned, all of them exactly when each is winning, none exactly when none is |
| Day04a.MatchesArePositions | day04a/src/main.rs:22-26 | the matches are the positions of the owned list that hold a winning number (repeats count each time) |
| Day04a.RepeatCountsTwice | day04a/src/main.rs:22-26 | owning a winning number twice gives two matches |
| Day04a.Score | day04a/src/main.rs:28-32 | `2u32.pow(n - 1)` for n > 0 and 0 otherwise: fits in a `u32`, and panics (overflow) exactly when n > 32 |
| Day04a.ScoreDoubles | day04a/src/main.rs:28-32 | the score is positive exactly when some number matches, is 1 for one match and doubles with each further match |
| Day04a.Solution | day04a/src/main.rs:3-35 | the sum of the card scores, or a panic from a card score; when it panics is stated by Day04a.SolutionPanics |
| Day04a.SolutionPanics | day04a/src/main.rs:4-34 | the sum panics exactly when some card has more than 32 matches |
| Day04a.SolutionAppend | day04a/src/main.rs:34 | the answer adds up over consecutive stretches of cards |
| Day04a.NoMatchesNoPoints | day04a/src/main.rs:28-34 | cards without matches add nothing |
| Day04b.GainedSettled | day04b/src/main.rs:37-47 | cards at or after card k give it no copies, so its count is final once the earlier cards are processed |
| Day04b.GainedGrows | day04b/src/main.rs:41-45 | processing more cards never takes copies away |
| Day04b.FirstCardOnce | day04b/src/main.rs:33 | nothing precedes the first card, so it keeps its one copy |
| Day04b.TotalAtLeastCards | day04b/src/main.rs:33-49 | every card is held at least once, so the total is at least the number of cards |
| Day04b.NoWinsNoCopies | day04b/src/main.rs:40 | with no match anywhere no card gains a copy |
| Day04b.WinsOf | day04b/src/main.rs:26-33 | the table's first components are each card's number of matches |
| Day04b.AddCopies | day04b/src/main.rs:38-46 | one turn of the outer loop: every following card within reach of card `card` gains its copies, the rest of the array is unchanged |
| Day04b.Propagate | day04b/src/main.rs:37-47 | after the loop over all cards, each entry holds the copies the card ends with |
| Day04b.AllSettled | day04b/src/main.rs:37-47 | after every card is processed, each card holds its original plus what the earlier cards gave it |
| Day04b.SumCopies | day04b/src/main.rs:49 | the `sum` of the copy counts is the total number of cards |
| Day04b.Solution | day04b/src/main.rs:3-50 | `solution` is the total number of cards one ends with |
| Day05a.MapValue | day05a/src/main.rs:56-68 | `find_map(...).unwrap_or(source_val)`: the first range holding the value moves it by the range's offset; a value no range holds is left alone |
| Day05a.LaterRangesIgnored | day05a/src/main.rs:58-67 | ranges after one that holds the value never matter |
| Day05a.FirstHolding | day05a/src/main.rs:58-67 | whenever some range holds the value there is a first one, at or before it |
| Day05a.ThroughComposes | day05a/src/main.rs:55-69 | going through a chain of maps is going through its first part, then through the rest |
| Day05a.EmptyMapsIdentity | day05a/src/main.rs:55-69 | maps without ranges leave every value alone |
| Day05a.Locate | day05a/src/main.rs:52-71 | the loop over the maps ends with the value sent through the whole chain |
| Day05a.SeedLine | day05a/src/main.rs:23-26 | a line "seeds: " followed by space-separated numbers yields exactly those numbers |
| Day05a.Solution | day05a/src/main.rs:49-74 | the least final location over all seeds: attained by some seed and at most every seed's; `min().unwrap()` panics exactly when there is no seed |
| Day05b.Span | day05b/src/main.rs:23-25 | the inner loop pushes start, start+1, ..., start+length-1 |
| Day05b.InPairs | day05b/src/main.rs:19-26 | a number is among the seeds of the first n pairs exactly when one of their spans holds it |
| Day05b.InSeeds | day05b/src/main.rs:19-26 | a number is a seed exactly when some (start, length) pair's span holds it |
| Day05b.PairsOfLonger | day05b/src/main.rs:19 | appending values never changes the seeds of the pairs before them |
| Day05b.TrailingValueIgnored | day05b/src/main.rs:19 | `len() / 2` ignores a trailing unpaired value |
| Day05b.ExpandSeeds | day05b/src/main.rs:17-26 | the two nested push loops list the seeds of every pair, in order |
| Day05b.ExampleSeedCount | day05b/src/main.rs:17-26 | the example's seed line `79 14 55 13` stands for 27 seeds, so the example's test cannot pass: Day05b.Solution panics on fewer than a hundred seeds |
| Day05b.Solution | day05b/src/main.rs:49-82 | the least final location over all seeds, as in part one; it panics exactly when there are fewer than 100 seeds, since `i % divs` then divides by zero |
| Day06a.CountBelowIsSize | day06a/src/main.rs:21-31 | the count of winning hold durations below n is the size of the set of durations h < n with (time − h) · h > distance |
| Day06a.WaysIsSize | day06a/src/main.rs:21-31 | the ways to win a race are exactly the durations 0 ..= time that travel farther than the record |
| Day06a.Symmetric | day06a/src/main.rs:23-25 | holding h and holding time − h travel the same distance; holding 0 or the whole race never wins |
| Day06a.WaysAtMost | day06a/src/main.rs:21-31 | a race of length t ≥ 1 has at most t − 1 ways to win, one of length 0 none |
| Day06a.HigherRecordFewerWays | day06a/src/main.rs:25 | a larger record never has more ways to beat it |
| Day06a.Races | day06a/src/main.rs:16 | `zip` pairs the i-th time with the i-th distance and stops at the shorter list |
| Day06a.UnwinnableRaceZero | day06a/src/main.rs:33 | one race that cannot be won makes the product 0 |
| Day06a.Solution | day06a/src/main.rs:4-14 | fewer than two lines panic (`data.next().unwrap()`) |
| Day06a.SolutionOfRaces | day06a/src/main.rs:3-34 | with the times and distances written after their nine-character labels, the answer is the product over the paired races of their ways to win |
| Day06a.CountBelowInterval | day06a/src/main.rs:21-31 | when the winning holds are exactly an interval, the count is the part of the interval below the bound |
| Day06a.ExampleWays | day06a/src/main.rs:21-31 | the example races 7/9, 15/40 and 30/200 have 4, 8 and 9 ways to win |
| Day06a.ExampleSolution | day06a/src/main.rs:48-53 | lines carrying the example's times and distances after their nine-character labels, single-spaced, give 288; the example file aligns its numbers in columns, which reads the same by Day06a.LeadingSpaceIgnored and Day06a.WiderGapIgnored |
| Day06a.ParsedAppend | day06a/src/main.rs:9-10 | the `filter_map` parse distributes over consecutive runs of pieces |
| Day06a.LeadingSpaceIgnored | day06a/src/main.rs:7-10 | a space in front of a line's numbers leaves an empty piece, which does not parse and is dropped, so the numbers read are unchanged |
| Day06a.WiderGapIgnored | day06a/src/main.rs:9-10 | widening the gap between two numbers by a space leaves the numbers read unchanged, so column padding does not matter |
| Day06b.RemoveSpaces | day06b/src/main.rs:5 | `replace(' ', "")` leaves no space and never lengthens the text |
| Day06b.RemoveSpacesAppend | day06b/src/main.rs:5 | removing spaces works piecewise over concatenation |
| Day06b.KernedDigits | day06b/src/main.rs:5 | digits separated by spaces after the label are read as the one number they spell |
| Day06b.Solution | day06b/src/main.rs:1-23 | the answer is Ok exactly when both lines parse; it is then the number of hold durations 0 ..= time that beat the record, which is 0 or below the race time |
| Day06b.ExampleWins | day06b/src/main.rs:12-21 | the example's race, 71530 ms with record 940200, is won exactly holding 14 to 71516 ms |
| Day06b.ExampleWays | day06b/src/main.rs:12-21 | that race has 71503 ways to win |
| Day06b.ExampleSolution | day06b/src/main.rs:36-42 | lines that read as 71530 and 940200 give 71503 |
| Day07a.CardOrder | day07a/src/main.rs:9-45 | `Card::from` accepts exactly the thirteen labels, and each card's place in the derived order is its label's position A, K, Q, ..., 2 |
| Day07a.CardLabel | day07a/src/main.rs:26-45 | a card read from a character sits at that character's position in the label list |
| Day07a.CardPositions | day07a/src/main.rs:126 | the cards of a line are Ok exactly when every character is a label, and each card is its character's position |
| Day07a.PatternsDistinct | day07a/src/main.rs:53-68 | no two hand types share a count pattern |
| Day07a.TallyCorrect | day07a/src/main.rs:74-77 | the `fold` into `counts` gives every card of the hand its number of occurrences, and the counts add up to the hand's length |
| Day07a.TallyStep | day07a/src/main.rs:75 | `*map.entry(val).or_default() += 1` raises the entry of the card, or creates it at 1, keeping the table exact |
| Day07a.TallyBag | day07a/src/main.rs:74-79 | `counts.values()` hold, as a multiset, each distinct card's number of occurrences |
| Day07a.SortNat | day07a/src/main.rs:80 | the sorted counts are ascending, a permutation of the counts, with the same sum |
| Day07a.AscendingFive | day07a/src/main.rs:82-104 | the ascending positive counts of a five-card hand are one of the seven shapes, so the "guaranteed" comments at lines 88 and 97 hold |
| Day07a.CountsPattern | day07a/src/main.rs:82-104 | the `match counts.len()` picks the type whose pattern is the counts |
| Day07a.HandTypePattern | day07a/src/main.rs:70-105 | for five cards `HandType::from` succeeds and the counts are the type's pattern |
| Day07a.HandTypeIff | day07a/src/main.rs:70-105 | a hand that is not five cards panics (`assert_eq!`); for five cards the type is t exactly when the cards' count pattern is t's |
| Day07a.LexTotal | day07a/src/main.rs:108-114 | the derived order on cards is total |
| Day07a.LexAntisymmetric | day07a/src/main.rs:108-114 | the derived order on card lists is antisymmetric |
| Day07a.LexTransitive | day07a/src/main.rs:108-114 | the derived order on card lists is transitive |
| Day07a.HandTotal | day07a/src/main.rs:108-114 | the derived order on hands (type, then cards, then bid) is total |
| Day07a.HandAntisymmetric | day07a/src/main.rs:108-114 | the derived order on hands is antisymmetric |
| Day07a.HandTransitive | day07a/src/main.rs:108-114 | the derived order on hands is transitive |
| Day07a.StrongerTypeFirst | day07a/src/main.rs:108-114 | a strictly stronger type sorts first whatever the cards and bids |
| Day07a.SortedUnique | day07a/src/main.rs:136 | two sorted arrangements of the same hands are equal, so the sort's outcome is determined |
| Day07a.SortedHands | day07a/src/main.rs:136 | the reference sort: sorted and a permutation of its input |
| Day07a.SortHands | day07a/src/main.rs:136 | `hands.sort()` in place: the array ends sorted, a permutation of its old contents, equal to the reference sort |
| Day07a.Sink | day07a/src/main.rs:136 | one insertion step: the prefix through i becomes sorted, the contents are a permutation |
| Day07a.WinningsAtLeastBids | day07a/src/main.rs:138-142 | every hand wins at least its bid |
| Day07a.WinningsAtMost | day07a/src/main.rs:138-142 | no hand wins more than its bid times the number of hands |
| Day07a.ParseHandLine | day07a/src/main.rs:119-133 | a line of five labels, a space and a bid parses to the hand with the cards' type, positions and bid |
| Day07a.ParseShortHand | day07a/src/main.rs:122-123 | a first field that is not five characters panics |
| Day07a.ParseHands | day07a/src/main.rs:117-134 | the hands of all lines, Ok exactly when every line is a hand |
| Day07a.Solution | day07a/src/main.rs:116-143 | Ok exactly when every line parses; then the rank-weighted sum `bid * (len - i)` of the sorted hands |
| Day07a.SortAndScore | day07a/src/main.rs:136-142 | the hands sorted in place and scored give the weighted sum of the reference sort |
| Day07a.OrderIrrelevant | day07a/src/main.rs:136-142 | the answer does not depend on the order of the input lines |
| Day07a.ExampleRanking | day07a/src/main.rs:157-161 | the puzzle's example ranks QQQJA, T55J5, KK677, KTJJT, 32T3K |
| Day07a.ExampleWinnings | day07a/src/main.rs:157-161 | the example's answer is 6440, the value the test expects |
| Day07b.JokerCardOrder | day07b/src/main.rs:10-46 | the joker order: the thirteen labels are accepted, each card sits at its label's position, and J now sorts after 2 |
| Day07b.JokerPositions | day07b/src/main.rs:145 | the cards of a line are Ok exactly when every character is a label, each at its position in the joker order |
| Day07b.WithoutEntries | day07b/src/main.rs:80 | `counts.remove(&'J')` keeps exactly the entries of the other cards |
| Day07b.WithoutSum | day07b/src/main.rs:80 | removing an entry takes its count out of the total |
| Day07b.RemovedEntry | day07b/src/main.rs:80 | the count removed is the entry's count |
| Day07b.RemovedAbsent | day07b/src/main.rs:80 | `unwrap_or(0)`: with no joker nothing is removed and the table is unchanged |
| Day07b.RestOfTally | day07b/src/main.rs:75-80 | after the removal the table holds each other card's occurrences, and the joker count is the number of J's |
| Day07b.RestSum | day07b/src/main.rs:75-80 | the other cards' counts and the jokers add up to the hand's length |
| Day07b.RaiseReversed | day07b/src/main.rs:87-92 | raising the first of the descending counts is raising the last of the ascending ones |
| Day07b.RaiseLastAscending | day07b/src/main.rs:91 | adding the jokers to the largest count keeps the counts ordered |
| Day07b.RaiseLastSum | day07b/src/main.rs:91 | adding the jokers to the largest count adds them to the total |
| Day07b.DescendingIsAscending | day07b/src/main.rs:99-123 | testing the descending counts against [4, 1], [3, 1, 1] classifies like part one's tests on ascending counts |
| Day07b.JokerTypeOfCounts | day07b/src/main.rs:71-124 | with some card other than J, the type is part one's classification of the adjusted counts |
| Day07b.AdjustedOfFive | day07b/src/main.rs:83-97 | the adjusted counts of five cards are ascending, positive and add up to five |
| Day07b.JokerTypePattern | day07b/src/main.rs:99-123 | with some card other than J, the adjusted counts are the pattern of the type returned |
| Day07b.AllJokers | day07b/src/main.rs:101 | five jokers are five of a kind |
| Day07b.Replace | day07b/src/main.rs:89-91 | the reference hand: every joker replaced by the card m |
| Day07b.ReplaceCounts | day07b/src/main.rs:89-91 | replacing the jokers by m gives m the jokers' occurrences and leaves the others' |
| Day07b.JokersJoinMostCommon | day07b/src/main.rs:71-124 | the joker type is the part-one type of the hand with every joker turned into a most common other card |
| Day07b.SomeMostCommon | day07b/src/main.rs:87 | every hand with a card other than the joker has a most common one |
| Day07b.NoJokers | day07b/src/main.rs:71-124 | without jokers, part two classifies like part one |
| Day07b.ParseHandLine | day07b/src/main.rs:138-152 | a line of five labels, a space and a bid is read as the hand with the joker type, joker positions and bid |
| Day07b.ParseHands | day07b/src/main.rs:136-153 | the hands of all lines, Ok exactly when every line is a hand |
| Day07b.Solution | day07b/src/main.rs:135-162 | Ok exactly when every line parses; then the rank-weighted sum of the sorted hands |
| Day07b.ExampleJokerRanking | day07b/src/main.rs:176-180 | the puzzle's example ranks KTJJT, QQQJA, T55J5, KK677, 32T3K |
| Day07b.ExampleJokerWinnings | day07b/src/main.rs:176-180 | the example's answer is 5905, the value the test expects |
| Day08a.NodeMap | day08a/src/main.rs:15-24 | the `HashMap` collected from the node lines has exactly the named nodes as keys |
| Day08a.NodeMapLastWins | day08a/src/main.rs:15-24 | `collect` into a map keeps the last line of a repeated name |
| Day08a.StopsOnce | day08a/src/main.rs:29-38 | a walk ends in one way only: at most one stopping point, and never both a stop and a panic |
| Day08a.PanicSticks | day08a/src/main.rs:30 | once the walk has panicked it stays panicked |
| Day08a.CycleRepeats | day08a/src/main.rs:8 | `cycle()`: two moments at the same node and the same place in the instructions are followed by the same walk |
| Day08a.Walk | day08a/src/main.rs:26-40 | the `while` loop returns the number of moves after which the walk first reaches the goal, or panics exactly when the walk reaches a missing node, no instructions or a letter other than L and R first |
| Day08a.NextPlace | day08a/src/main.rs:8 | stepping the cursor of the cycle is taking the next move number modulo the instruction count |
| Day08a.Solution | day08a/src/main.rs:4-41 | the number of moves from AAA to ZZZ, or a panic met on the way |
| Day08a.ExampleSteps | day08a/src/main.rs:55-59 | the puzzle's example (LLR; AAA, BBB, ZZZ) takes 6 moves, the value the test expects |
| Day08b.Starts | day08b/src/main.rs:26-29 | the start nodes are exactly the keys ending in A |
| Day08b.StartsMove | day08b/src/main.rs:44 | a walk from a start ending in A moves at least once before it can stop at a node ending in Z |
| Day08b.CountsGrow | day08b/src/main.rs:38-56 | one more walk that stops after c moves adds c to the step counts |
| Day08b.Solution | day08b/src/main.rs:5-59 | panics only when some start's walk panics; otherwise every walk stops and the result is the least common multiple of their step counts, whatever order the keys come in |
| Day08b.NoPanic | day08b/src/main.rs:38-56 | when every walk stops, none panics |
| Day08b.ExampleAnswer | day08b/src/main.rs:73-77 | the puzzle's example has answer 6, the value the test expects |
| Day08b.ExampleWalks | day08b/src/main.rs:73-77 | in the example, 11A reaches 11Z after 2 moves and 22A reaches 22Z after 3 |
| Common.LcmFoldStep | day08b/src/main.rs:55 | `lcm = lcm.lcm(&num_steps)`: folding in one more positive count gives the lcm of the larger set |
| Common.LcmOfNone | day08b/src/main.rs:36 | the fold starts at 1, the lcm of no counts |
| Common.LcmLeast | day08b/src/main.rs:55 | lcm(a, b) divides every common multiple of a and b |
| Common.LcmIsCommonMultiple | day08b/src/main.rs:55 | lcm(a, b) is a multiple of a and of b |
| Common.IsLcmUnique | day08b/src/main.rs:36-56 | a set of counts has one least common multiple, so the fold's order does not matter |
| Day09a.ParseI32 | day09a/src/main.rs:7 | `parse::<i32>()`: a parsed value lies in the 32-bit signed range |
| Day09a.ParseI32RoundTrip | day09a/src/main.rs:7 | every 32-bit value written in decimal, with a minus sign when negative, parses back to itself |
| Day09a.ParseI32Rejects | day09a/src/main.rs:7 | a lone minus sign, or a number below −2^31, panics |
| Day09a.ParseRow | day09a/src/main.rs:7 | a parsed row is never empty (`split` yields at least one piece) |
| Day09a.ParseAll | day09a/src/main.rs:7 | the row parses exactly when each piece does, and then holds each piece's value |
| Day09a.Differences | day09a/src/main.rs:11-16 | the difference row has one value fewer than its row |
| Day09a.BuildHistory | day09a/src/main.rs:5-25 | the `loop` builds the whole history: the row, then each difference row of the one above, stopping at the first all-zero row |
| Day09a.NextOfRow | day09a/src/main.rs:30-33 | each row's next value is its last value plus the next value of the row below |
| Day09a.Extrapolate | day09a/src/main.rs:4-35 | the closure returns the row's prediction: its last value plus the prediction of its difference row |
| Day09a.NextSumsLasts | day09a/src/main.rs:28-35 | the prediction is the sum of the last values of all rows of the history |
| Day09a.AppendDifference | day09a/src/main.rs:11-16 | appending x to a row appends x − last to its differences |
| Day09a.ExtendedDifferences | day09a/src/main.rs:30-33 | appending the prediction to a row appends the next difference to the difference row |
| Day09a.ConstantRow | day09a/src/main.rs:18-24 | a constant row predicts its constant |
| Day09a.LinearRow | day09a/src/main.rs:9-33 | a row rising by b at every step predicts its last value plus b |
| Day09a.Rows | day09a/src/main.rs:2-7 | every line's row is non-empty |
| Day09a.RowsOfLines | day09a/src/main.rs:2-7 | the lines parse exactly when each of them does |
| Day09a.RowsAreParsed | day09a/src/main.rs:2-7 | the rows are then the lines' own |
| Day09a.Solution | day09a/src/main.rs:1-38 | `solution` is the sum of the predictions, or a panic when some line does not parse |
| Day09a.ExampleFirst | day09a/src/main.rs:52-56 | the puzzle's example row 0 3 6 9 12 15 predicts 18 |
| Day09a.ExampleSecond | day09a/src/main.rs:52-56 | the example row 1 3 6 10 15 21 predicts 28 |
| Day09a.ExampleThird | day09a/src/main.rs:52-56 | the example row 10 13 16 21 30 45 predicts 68 (18 + 28 + 68 = 114, the value the test expects) |
| Day09b.BackDifferences | day09b/src/main.rs:26-32 | the swapped differences `last[i - 1] - val` have one value fewer than their row |
| Day09b.BuildHistory | day09b/src/main.rs:14-41 | the `loop` builds the whole history of swapped differences |
| Day09b.BackNextOfRow | day09b/src/main.rs:46-50 | each row's next value is its last value minus the next value of the row below |
| Day09b.Extrapolate | day09b/src/main.rs:13-52 | the closure computes the swapped-subtraction prediction of the row |
| Day09b.BackIsNegated | day09b/src/main.rs:30-31 | the swapped differences are the negated differences |
| Day09b.NegatedDifferences | day09b/src/main.rs:30-31 | negating a row negates its differences |
| Day09b.ReversedDifferences | day09b/src/main.rs:19-20 | reversing a row reverses and negates its differences |
| Day09b.NextNegate | day09b/src/main.rs:47-48 | the forward prediction of a negated row is the negated prediction |
| Day09b.BackNextIsNext | day09b/src/main.rs:30-48 | the two changes cancel: the swapped-subtraction prediction equals part one's prediction |
| Day09b.ReversedIsPrev | day09b/src/main.rs:1-9 | predicting the reversed row is extrapolating the row backwards: the value before its first, whose difference row starts with the backward prediction below |
| Day09b.PrependDifference | day09b/src/main.rs:1-9 | prepending x to a row prepends row[0] − x to its differences |
| Day09b.ProgramIsPrev | day09b/src/main.rs:13-52 | the program's answer for one line is the value before its first |
| Day09b.Solution | day09b/src/main.rs:10-55 | `solution` is the sum of the backward predictions, or a panic when some line does not parse |
| Day09b.ExampleFirst | day09b/src/main.rs:69-73 | the example row 0 3 6 9 12 15 extends backwards to −3 |
| Day09b.ExampleSecond | day09b/src/main.rs:69-73 | the example row 1 3 6 10 15 21 extends backwards to 0 |
| Day09b.ExampleThird | day09b/src/main.rs:69-73 | the example row 10 13 16 21 30 45 extends backwards to 5 (−3 + 0 + 5 = 2, the value the test expects) |
| Day10a.Connections | day10a/src/main.rs:48-63 | the connection table accepts exactly `.`, `S` and the six pieces, and yields a pair of cells exactly for the pieces; anything else is `unreachable!` |
| Day10a.ConnectionsAdjacent | day10a/src/main.rs:56-61 | each piece joins two different cells next to it: `|` up and down, `-` left and right, `L` up and right, `J` up and left, `7` left and down, `F` right and down |
| Day10a.CellAt | day10a/src/main.rs:45-68 | a pipe parsed at column x of row y has position (x, y) |
| Day10a.ParseLine | day10a/src/main.rs:43-70 | a line parses exactly when each of its characters does, into one cell per character |
| Day10a.ParseCells | day10a/src/main.rs:39-72 | the grid parses exactly when each line does, into one row per line |
| Day10a.StartOf | day10a/src/main.rs:37-55 | `start` is (−1, −1) or the position of an `S` |
| Day10a.StartIsLast | day10a/src/main.rs:52-55 | the closure assigns `start` at every S, so no S comes after it in reading order, and with no S it stays (−1, −1) |
| Day10a.OffsetShape | day10a/src/main.rs:77-79 | the nine offsets of the nested loops are distinct and each coordinate lies in [−1, 1] |
| Day10a.StartConnections | day10a/src/main.rs:75-91 | the nested loops collect, in loop order, the positions of the neighbouring pipes that connect back to the start; a valid cell off the grid panics |
| Day10a.ScanSound | day10a/src/main.rs:85-88 | every position collected holds a pipe next to the start that connects back to it |
| Day10a.ScanComplete | day10a/src/main.rs:77-91 | every pipe of the 3x3 neighbourhood that connects back to the start is collected |
| Day10a.ScanDistinct | day10a/src/main.rs:77-91 | no position is collected twice |
| Day10a.StartPipe | day10a/src/main.rs:93-104 | with exactly two connections, they are two different cells other than the start |
| Day10a.FromInput | day10a/src/main.rs:34-110 | `from_input` builds the reference field: a panic on a bad character, an off-grid neighbour, a count other than 2 (`assert_eq!`) or a start off the grid |
| Day10a.BuiltField | day10a/src/main.rs:100-109 | a built field holds the start pipe at the start, joined to two different pipes that connect back to it; every other cell is as parsed |
| Day10a.PutStart | day10a/src/main.rs:101-104 | putting the start pipe in changes no other cell |
| Day10a.Get | day10a/src/main.rs:112-118 | `get` is None for a negative coordinate, panics off the grid, and otherwise is the cell |
| Day10a.NextFrom | day10a/src/main.rs:135-146 | Ok exactly when the previous pipe is connected; then the other connection, different from where one came from |
| Day10a.NextFromReverses | day10a/src/main.rs:135-146 | coming back the other way leads to where one came from |
| Day10a.BeginOnBuilt | day10a/src/main.rs:157-161 | on a built field the walk begins at the start and moves to a pipe that connects back to it |
| Day10a.StepFollowsPipe | day10a/src/main.rs:163-168 | each turn moves from the current pipe to one of its connections, not the one it came from |
| Day10a.StopsOnce | day10a/src/main.rs:163-168 | the walk ends in one way only: at most one return to the start, never both a return and a panic |
| Day10a.LoopLength | day10a/src/main.rs:157-168 | `len` is one more than the number of turns after which the walk first returns to the start, or the walk panics |
| Day10a.Solution | day10a/src/main.rs:153-171 | the answer is half the number of pipes on the loop, or a panic from the field or from the walk |
| Day10b.NeighboursOf | day10b/src/main.rs:19-33 | `neighbors` yields exactly eight coordinates |
| Day10b.NeighboursAround | day10b/src/main.rs:19-33 | a coordinate is among the neighbours exactly when it differs from the cell and lies within one step on both axes |
| Day10b.Neighbours | day10b/src/main.rs:19-33 | the two nested loops over the offsets, skipping (0, 0), push the eight neighbours in order |
| Day10b.CellAt | day10b/src/main.rs:157-179 | a parsed pipe records its own position and its symbol |
| Day10b.ParseLine | day10b/src/main.rs:151-182 | a line parses exactly when every character does, one cell per character |
| Day10b.ParseCells | day10b/src/main.rs:148-183 | the grid parses exactly when every line does, one row per line |
| Day10b.ConnectedSound | day10b/src/main.rs:186-198 | every connection the start search finds is a listed neighbour holding a pipe, at its own position, that connects back to the start |
| Day10b.BuiltStart | day10b/src/main.rs:185-212 | a built field holds an `S` pipe at the start whose two connections are neighbouring pipes connected back to it |
| Day10b.MarkOne | day10b/src/main.rs:299 | marking one empty cell as visited removes exactly that cell from the empty cells |
| Day10b.MarksShrink | day10b/src/main.rs:274-311 | turning cells from empty to visited never adds empty cells |
| Day10b.Field.constructor | day10b/src/main.rs:214-217 | the field holds the given grid and start |
| Day10b.Field.Get | day10b/src/main.rs:220-229 | None exactly for a negative or off-grid coordinate, otherwise the cell there |
| Day10b.Field.Set | day10b/src/main.rs:231-237 | panics exactly off the grid and then changes nothing; otherwise the grid with that one cell replaced |
| Day10b.Field.SearchFrom | day10b/src/main.rs:274-311 | the search only turns empty cells into visited ones; `Some(n)` means n cells were marked, the start cell is not empty and every neighbour of a marked cell is on the board and not empty; None means a coordinate off the board is the start or a neighbour of a marked cell; in both cases every marked cell is joined to the start by a chain of marked neighbours, so the fill reaches only cells connected to where it began |
| Day10b.Field.Fill | day10b/src/main.rs:289-300 | counting and marking an empty cell and pushing its neighbours keeps the search invariant and removes one empty cell |
| Day10b.SkipStep | day10b/src/main.rs:288 | popping a visited cell or a pipe keeps the search invariant |
| Day10b.FillKeeps | day10b/src/main.rs:289-300 | marking the popped empty cell and pushing its neighbours keeps the whole search invariant, keeps the marked cells joined to the start and removes one empty cell |
| Day10b.LinkStep | day10b/src/main.rs:286-300 | the popped cell is the start or a neighbour of a marked cell, so once it is marked every marked cell is still joined to the start |
| Day10b.JoinedGrows | day10b/src/main.rs:299 | marking more cells never breaks a chain of marked neighbours back to the start |
| Day10b.FillStep | day10b/src/main.rs:289-300 | marking the popped cell and pushing its neighbours keeps every marked cell's neighbours marked or pending |
| Day10b.MarkStep | day10b/src/main.rs:299 | marking one more empty cell adds exactly that cell to the marked ones |
| Day10b.MarkCount | day10b/src/main.rs:290 | the count of marked cells grows by one per marked cell |
| Day10b.Field.ClearJunk | day10b/src/main.rs:242-266 | the first walk either panics, leaving the grid alone, or comes back to the start after k turns, and then every cell off the loop is made empty |
| Day10b.Field.Blank | day10b/src/main.rs:258-265 | the blanking loops leave the grid cleared of every position not kept |
| Day10b.WalkLoop | day10b/src/main.rs:243-256 | the walk's `visited` set is the start plus every position passed before coming back, or the walk panics at the turn where it does |
| Day10b.ClearedRow | day10b/src/main.rs:260-264 | clearing keeps a row's length |
| Day10b.Cleared | day10b/src/main.rs:259-265 | clearing keeps the grid's shape, row by row |
| Day10b.ClearedCells | day10b/src/main.rs:259-265 | after clearing a kept cell is unchanged and every other cell is empty |
| Day10b.NextFrom | day10b/src/main.rs:84-95 | `next_from` succeeds exactly when the previous pipe is one of the two connections, and yields the other one |
| Day10b.StopsOnce | day10b/src/main.rs:251 | a walk comes back to the start at a single turn and cannot also panic |
| Day10b.TrailNext | day10b/src/main.rs:253-255 | one turn moves from the current pipe to the pipe at its next connection |
| Day10b.WalkOn | day10b/src/main.rs:251-256 | a turn away from the start adds the current position to the loop |
| Day10b.StartConnections | day10b/src/main.rs:188-198 | the loop over the start's neighbours finds exactly the start's connections |
| Day10b.TrailSurvives | day10b/src/main.rs:368-414 | on the cleared grid the second walk passes the same pipes as the first |
| Day10b.KeptPipe | day10b/src/main.rs:261-263 | a pipe at a kept position survives the clearing |
| Day10b.ClearedStops | day10b/src/main.rs:372 | after clearing, the walk still comes back to the start after the same number of turns |
| Day10b.WalkAhead | day10b/src/main.rs:372-414 | before coming back, the second walk always has one more turn |
| Day10b.FromInput | day10b/src/main.rs:143-218 | a fresh field exactly when the grid parses and the start has exactly two pipes connected to it, holding the grid with the `S` pipe put in |
| Day10b.BuildWellPlaced | day10b/src/main.rs:175-179 | every pipe of a built grid sits at its own position |
| Day10b.PutPlaced | day10b/src/main.rs:208-212 | putting the start pipe at its own position keeps that |
| Day10b.PipeAtPlaced | day10b/src/main.rs:110-115 | `pipe()` on a well-placed grid yields the pipe at that position |
| Day10b.MarksKeepPipes | day10b/src/main.rs:288 | searches leave every pipe in place |
| Day10b.MarksTransitive | day10b/src/main.rs:274-311 | marking in two rounds is marking |
| Day10b.DeltaRightTurns | day10b/src/main.rs:375-379 | for a unit step `delta_right` is a quarter turn, and four of them give back the step |
| Day10b.TallyStep | day10b/src/main.rs:381-400 | adding a search's count to an open tally counts the cells that search marked, disjoint from those counted before and from the other side's |
| Day10b.FilledGrows | day10b/src/main.rs:381-400 | later searches never unmark a cell |
| Day10b.SearchSide | day10b/src/main.rs:381-400 | one side's search keeps its tally equal to the number of cells it counted, closes it when the edge is reached and never reopens it; a surviving tally adds exactly the cells this search filled, all joined to the searched neighbour, and a closed one searches nothing |
| Day10b.Tallies | day10b/src/main.rs:365-423 | the second walk ends with each surviving tally counting empty cells of the cleared grid, the two sets disjoint and both among the cells the searches turned to visited; the answer is the right tally, else the left, and unwrapping two closed tallies panics |
| Day10b.Solution | day10b/src/main.rs:350-424 | the answer or a panic from building, from the first walk or from both tallies closing; an answer counts empty cells of the grid cleared of everything off the loop, right before left |
| Day11a.RowGalaxiesExact | day11a/src/main.rs:26-28 | a row's galaxies are exactly its non-`.` positions, left to right |
| Day11a.GalaxiesExact | day11a/src/main.rs:22-30 | the galaxies are exactly the non-`.` cells of the image, in reading order |
| Day11a.Upto | day11a/src/main.rs:40-41 | `(0..n)` collects exactly the numbers below n |
| Day11a.EmptyLines | day11a/src/main.rs:40-46 | the rows (columns) left after removing every galaxy's row (column) are exactly those below the size that hold no galaxy |
| Day11a.EmptyBetween | day11a/src/main.rs:53-57 | the empty lines before b are those before a plus those from a up to b |
| Day11a.GrowGap | day11a/src/main.rs:64-65 | growth widens the gap between two lines by one per empty line between them, so it keeps their order |
| Day11a.ExpandAll | day11a/src/main.rs:52-66 | every galaxy moves, in place, by the number of empty rows above it and empty columns left of it |
| Day11a.Distance | day11a/src/main.rs:78 | the Manhattan distance is 0 exactly for the same galaxy |
| Day11a.SkipSelf | day11a/src/main.rs:74 | the pair of a galaxy with itself adds nothing |
| Day11a.PairSumStrict | day11a/src/main.rs:73-80 | summing over `j in i..` equals summing over the unordered pairs of distinct galaxies |
| Day11a.ExpandedDistance | day11a/src/main.rs:52-78 | after expansion two galaxies are as far apart as in the image plus one per empty row and per empty column between them |
| Day11a.TotalDistance | day11a/src/main.rs:71-82 | the nested loops sum the distance over every pair |
| Day11a.Solution | day11a/src/main.rs:19-83 | panics exactly on an empty input (`next().unwrap()`), otherwise the pair sum of the expanded galaxies |
| Day11b.GrowByOneOrTwo | day11b/src/main.rs:48-49 | factor 1 moves nothing and factor 2 is part one's growth |
| Day11b.GrowByGap | day11b/src/main.rs:48-49 | growth widens a gap by `factor - 1` per empty line between, keeping the order |
| Day11b.AxisGap | day11b/src/main.rs:48-49 | on one axis the distance grows by `factor - 1` per empty line between |
| Day11b.ExpandedByDistance | day11b/src/main.rs:48-60 | the expanded distance is the image distance plus `factor - 1` per empty row and column between |
| Day11b.ExpandAllBy | day11b/src/main.rs:35-50 | `expansion_factor - 1` underflows, a panic, exactly when the factor is 0 and there is a galaxy; otherwise each galaxy is grown by the factor |
| Day11b.FactorTwo | day11b/src/main.rs:3-5 | factor 2 gives part one's expansion |
| Day11b.FactorOne | day11b/src/main.rs:48-49 | factor 1 leaves the galaxies where they are |
| Day11b.Solution | day11b/src/main.rs:7-65 | panics exactly for an empty input or factor 0 with a galaxy; otherwise the pair sum of the galaxies grown by the factor |
| Day12a.Arrangements | day12a/src/main.rs:12-56 | as written, every call with a character in hand panics or yields 0 |
| Day12a.ParsedPieces | day12a/src/main.rs:64 | one parse result per comma-separated piece, in order |
| Day12a.ParseLine | day12a/src/main.rs:62-66 | a parsed line has a non-empty pattern, so its first character exists |
| Day12a.Solution | day12a/src/main.rs:58-71 | as written, the answer for any input is 0 or a panic |
| Day12a.SingleDamaged | day12a/src/main.rs:30-35 | the line "# 1" parses, yet its count panics on `&pattern[1..]` past its last character |
| Day12b.ArrangementsCount | day12b/src/main.rs:13-80 | for positive runs the count is the number of fillings of the pattern's unknowns whose runs of damaged springs are exactly the given runs |
| Day12b.BranchCount | day12b/src/main.rs:51-75 | trying '.' or '#' first counts the fillings that start with that character |
| Day12b.CompletionsFill | day12b/src/main.rs:10-12 | every listed completion fills in the pattern |
| Day12b.FillsCompleted | day12b/src/main.rs:10-12 | every filling of the pattern is listed |
| Day12b.CompletionsDistinct | day12b/src/main.rs:10-12 | no filling is listed twice |
| Day12b.CountAppend | day12b/src/main.rs:51-75 | the possibilities of the two values add up |
| Day12b.CountHash | day12b/src/main.rs:55 | a '#' in front lengthens the run in progress |
| Day12b.CountDot | day12b/src/main.rs:56-70 | a '.' in front closes a run in progress only when it matches the first run, and passes over no run |
| Day12b.Count | day12b/src/main.rs:13-80 | the cached recursion returns the uncached count, keeps every cached entry correct, only adds entries and caches each non-empty pattern it was asked for |
| Day12b.Possibility | day12b/src/main.rs:51-75 | one tried value counts as the uncached branch, keeping the cache correct |
| Day12b.Repeat | day12b/src/main.rs:91-92 | `repeat(x).take(n)` gives n copies of x |
| Day12b.UnfoldRuns | day12b/src/main.rs:92-94 | parsing the run list repeated n times and joined by ',' gives the runs repeated n times, and panics exactly when the list does |
| Day12b.ParseRunsJoined | day12b/src/main.rs:92-94 | two run lists joined by ',' parse to the two lists one after the other |
| Day12b.PiecesAppend | day12b/src/main.rs:94 | parsing the pieces of two lists is parsing each |
| Day12b.UnfoldLineRuns | day12b/src/main.rs:88-96 | an unfolded line parses exactly when its folded runs do, giving the pattern five times joined by '?' and the runs five times |
| Day12b.UnfoldAll | day12b/src/main.rs:85-100 | panics exactly when some line does, otherwise one unfolded entry per line |
| Day12b.SumCounts | day12b/src/main.rs:101-103 | one cache shared by all lines gives the sum of the uncached counts |
| Day12b.Solution | day12b/src/main.rs:82-104 | panics exactly when some line does not unfold, otherwise the sum of the counts of the unfolded lines |
| Day12b.CorrectedLineCount | day12a/src/main.rs:58-68 | the corrected count of one line panics exactly when the line does not parse |
| Day12b.CorrectedCounts | day12a/src/main.rs:1-4 | the corrected part-one count is the number of fillings of the folded pattern with the line's runs |
| Day12b.CorrectedSingle | day12a/src/main.rs:12-56 | the line "# 1" has exactly one arrangement, "#", which the corrected count finds |
| Day13a.HashInjective | day13a/src/main.rs:52-55 | equally long lines with the same number have rocks in the same places, so comparing numbers compares lines |
| Day13a.RowNumbers | day13a/src/main.rs:61-67 | one number per row, the row read as a binary numeral with '#' a 1 |
| Day13a.ColumnNumbers | day13a/src/main.rs:69-80 | one number per column of the width of the second line, the column read the same way |
| Day13a.MirroredReflects | day13a/src/main.rs:36-41 | an even palindromic suffix has its line of reflection half-way along it |
| Day13a.ReflectsMirrored | day13a/src/main.rs:6-7 | a reflection in the right half bounds a palindromic suffix that reaches the end |
| Day13a.Axis | day13a/src/main.rs:1-4 | a found axis is a true line of reflection whose palindrome reaches the end |
| Day13a.AxisLeast | day13a/src/main.rs:22-27 | no reflection in the right half is passed over: the axis found is the one nearest the middle |
| Day13a.ReverseReflects | day13a/src/main.rs:85-99 | a reflection of the reversed sequence after k items is one of the sequence after `len - k` |
| Day13a.DetectOffsetPalindrome | day13a/src/main.rs:5-49 | panics exactly on an empty slice (`len() - 1`); otherwise the first palindromic suffix's axis, or None |
| Day13a.WalkStep | day13a/src/main.rs:31-34 | one more agreeing pair keeps the two pointers symmetric |
| Day13a.HalvesMirror | day13a/src/main.rs:39-41 | pointers that crossed mean the suffix mirrors, with `i` at its middle |
| Day13a.UnequalPair | day13a/src/main.rs:43-45 | pointers that stopped before crossing mean the suffix does not mirror |
| Day13a.Examples | day13a/src/main.rs:127-148 | the three unit tests: [3,2,2,3] gives 2, [3,2,3,2,2,3] gives 4, [3,2,3,2,3] gives None |
| Day13a.FoundEitherWay | day13a/src/main.rs:85-99 | a sequence has a line of reflection exactly when the forward or the reversed search finds one |
| Day13a.ScoreReflects | day13a/src/main.rs:84-102 | a block panics exactly when it has no rows or neither rows nor columns reflect; otherwise the score is 100 per row above a true row reflection, or the columns left of a true column reflection when no row reflects |
| Day13a.Score | day13a/src/main.rs:88-102 | the four detections in turn give the block's score |
| Day13a.Solution | day13a/src/main.rs:51-105 | an answer exactly when every block has two lines and a score, and then it is the sum of the block scores |
| Day13b.PopXorZero | day13b/src/main.rs:20 | `(a ^ b).count_ones()` is 0 exactly when the numbers are equal |
| Day13b.PopXorSymmetric | day13b/src/main.rs:32 | the count of differing bits does not depend on the order of the pair |
| Day13b.PopXorCounts | day13b/src/main.rs:69-90 | for two equally long lines, the differing bits of their numbers are the cells where one has a rock and the other not |
| Day13b.AxisSound | day13b/src/main.rs:5-55 | a found line is the axis of an accepted and not ignored suffix, and lies in the second half |
| Day13b.AxisLeast | day13b/src/main.rs:29-52 | no qualifying suffix is passed over |
| Day13b.SpentZero | day13b/src/main.rs:32 | no differing bit in the outer pairs is equality of those pairs |
| Day13b.PairsStep | day13b/src/main.rs:32-39 | the outer pairs agree exactly when the pairs inside do and the next one agrees |
| Day13b.AcceptsExactly | day13b/src/main.rs:11 | without smudges a suffix is accepted exactly when it mirrors, as in part one |
| Day13b.NoSmudges | day13b/src/main.rs:5-55 | without smudges the search is part one's search |
| Day13b.ExampleEven | day13b/src/main.rs:166-172 | unit test: [3,2,2,3] gives 2 |
| Day13b.ExampleOffset | day13b/src/main.rs:174-180 | unit test: [3,2,3,2,2,3] gives 4 |
| Day13b.ExampleNone | day13b/src/main.rs:182-188 | unit test: [3,2,3,2,3] gives None |
| Day13b.ExampleSmudge | day13b/src/main.rs:32-46 | 3 and 2 differ in one bit: the pair reflects with a smudge, not without, and not when its line is ignored |
| Day13b.SpentGrows | day13b/src/main.rs:32-39 | a longer walk has spent at least as much |
| Day13b.DetectOffsetPalindrome | day13b/src/main.rs:5-55 | panics exactly on an empty slice; otherwise the axis of the first suffix that mirrors up to the smudge budget, skipping the ignored line |
| Day13b.Walk | day13b/src/main.rs:30-39 | the inner loop walks the pointers while the remaining budget covers each pair, and stops when they cross or a pair needs more |
| Day13b.AxisSkip | day13b/src/main.rs:48-51 | a start that is not accepted, or whose line is ignored, is skipped |
| Day13b.AxisEnd | day13b/src/main.rs:24-27 | fewer than two items from the start find nothing |
| Day13b.OuterPairTooFar | day13b/src/main.rs:20-22 | an outermost pair that alone needs more than the budget rules the start out |
| Day13b.AxisFound | day13b/src/main.rs:44-46 | an accepted start whose line is not ignored gives its axis |
| Day13b.Crossed | day13b/src/main.rs:44 | pointers that crossed mean the suffix is accepted, with its axis at `i` |
| Day13b.Stopped | day13b/src/main.rs:32 | pointers that stopped before crossing mean the suffix is not accepted |
| Day13b.SmudgedLine | day13b/src/main.rs:119-142 | the smudged answer is the score of the first orientation whose smudge-tolerant search finds a line other than the smudgeless one |
| Day13b.SmudgelessLine | day13b/src/main.rs:107-116 | the smudgeless line is a line of reflection of its orientation in part one's sense, and never 0 |
| Day13b.IgnoredNeverFound | day13b/src/main.rs:124-133 | the smudged search never returns the line it was told to ignore, so the `continue` is never taken |
| Day13b.FindSmudgeless | day13b/src/main.rs:108-116 | the first loop over the orientations finds the first smudgeless line, or fails its `expect` |
| Day13b.FindSmudged | day13b/src/main.rs:119-142 | the second loop finds the first smudged line other than the smudgeless one and scores it |
| Day13b.Score | day13b/src/main.rs:94-143 | the two searches give the block's score |
| Day13b.Solution | day13b/src/main.rs:65-145 | an answer exactly when every block has a score, and then their sum |
| Day14b.Column | day14b/src/main.rs:6-16 | column j holds cell j of every row, top to bottom |
| Day14b.Dots | day14b/src/main.rs:15 | n empty cells |
| Day14b.Drop | day14b/src/main.rs:10-17 | a rock added under a column lengthens it by one |
| Day14b.Tilt | day14b/src/main.rs:5-20 | tilting keeps a column's length |
| Day14b.DropKeeps | day14b/src/main.rs:10-17 | a rolling rock only swaps with empty cells: fixed rocks stay in place, and the column gains exactly one round rock |
| Day14b.TiltKeeps | day14b/src/main.rs:5-20 | tilting keeps every cube rock in place and every cell that rolls on a rolling cell, and keeps the column's contents as a multiset |
| Day14b.SettledPrefix | day14b/src/main.rs:10-17 | the top part of a settled column is settled |
| Day14b.DropSettled | day14b/src/main.rs:10-17 | a rock rolled into a settled column leaves it settled |
| Day14b.TiltSettled | day14b/src/main.rs:4-20 | after the tilt no round rock has an empty cell above it |
| Day14b.SettledStays | day14b/src/main.rs:10-13 | a settled column does not change when tilted |
| Day14b.TiltIdempotent | day14b/src/main.rs:4-20 | tilting twice is tilting once |
| Day14b.DropThroughDots | day14b/src/main.rs:10-17 | dropping under empty cells is dropping above them |
| Day14b.Tilted | day14b/src/main.rs:4-20 | the tilted board has the board's shape |
| Day14b.TiltedColumn | day14b/src/main.rs:4-20 | each column of the tilted board is that column tilted |
| Day14b.TiltedBoard | day14b/src/main.rs:4-20 | the tilted board keeps cube rocks and rolling cells in place, keeps each column's contents, and every column is settled |
| Day14b.TiltedTwice | day14b/src/main.rs:4-20 | tilting a tilted board changes nothing |
| Day14b.SetCell | day14b/src/main.rs:15-16 | setting one cell keeps the board's shape |
| Day14b.SetCellColumns | day14b/src/main.rs:15-16 | setting cell (i, j) changes only entry i of column j |
| Day14b.Roll | day14b/src/main.rs:10-17 | the `for k in (0..i).rev()` loop rolls the rock at row i into the part of its column above it, leaving the other columns alone |
| Day14b.RollStep | day14b/src/main.rs:15-16 | one swap moves the rock up by one cell |
| Day14b.RollDone | day14b/src/main.rs:11-13 | a rock that stops at the top or under a cell other than '.' has been dropped |
| Day14b.TiltCell | day14b/src/main.rs:7-18 | one cell of row i: a round rock rolls up, any other cell stays; the rows above and the cells to the left stay tilted |
| Day14b.TiltNorth | day14b/src/main.rs:4-20 | the nested in-place loops leave the board tilted north |
| Day14b.TiltedAll | day14b/src/main.rs:5-20 | after every row, the board is the tilted board |
| Day14b.CountRocksMultiset | day14b/src/main.rs:26 | `filter(...).count()` is the number of round rocks |
| Day14b.ColumnLoadAppend | day14b/src/main.rs:22-27 | a cell added at the bottom weighs 1 and adds 1 to every rock above |
| Day14b.ColumnsLoadTop | day14b/src/main.rs:22-27 | the top row's rocks each weigh the board's height |
| Day14b.LoadByColumns | day14b/src/main.rs:22-27 | the row-by-row load is the sum of the column loads |
| Day14b.ColumnsEmpty | day14b/src/main.rs:22-27 | an empty board has no load |
| Day14b.DropRaises | day14b/src/main.rs:10-17 | a rolled rock weighs at least as much as one left at the bottom |
| Day14b.TiltRaises | day14b/src/main.rs:4-20 | tilting never lowers a column's load |
| Day14b.ColumnsRaise | day14b/src/main.rs:22-27 | at least as much load column by column is at least as much load |
| Day14b.TiltedRaisesLoad | day14b/src/main.rs:1-28 | tilting north never lowers the load on the north beams |
| Day14b.ExampleColumn | day14b/src/main.rs:4-27 | the column ".O#.O" tilts to "O.#O." and its load goes from 5 to 7 |
| Day14b.Solution | day14b/src/main.rs:1-28 | the load of the board tilted north, which is at least the load of the board as given; 0 for no lines |
| Day15a.Mix | day15a/src/main.rs:7 | one step of the fold stays below 256 |
| Day15a.Hash | day15a/src/main.rs:5-7 | the HASH of a step is below 256, and 0 for the empty step |
| Day15a.FoldAppend | day15a/src/main.rs:5-7 | folding two texts one after the other is folding their concatenation |
| Day15a.HashSnoc | day15a/src/main.rs:7 | the hash of a text one character longer is one more step of the fold |
| Day15a.FoldBelow | day15a/src/main.rs:7 | a fold started below 256 stays below 256 |
| Day15a.HashExample | day15a/src/main.rs:5-7 | "HASH" hashes to 52 |
| Day15a.Hashes | day15a/src/main.rs:3-8 | one hash per comma-separated step, each below 256 |
| Day15a.Solution | day15a/src/main.rs:1-10 | the answer is at most 255 per comma-separated step |
| Day15a.SolutionAppend | day15a/src/main.rs:3-9 | the answer for two texts joined by ',' is the sum of their answers |
| Day15a.SolutionSingle | day15a/src/main.rs:3 | a text without a comma is one step, whose answer is its hash |
| Day15a.HashOfFour | day15a/src/main.rs:5-7 | a three- or four-character step hashes to the value its characters fold to |
| Day15a.ExampleStepHashes | day15a/src/main.rs:5-7 | the eleven steps of the example hash to 30, 253, 97, 47, 14, 180, 9, 197, 48, 214 and 231 |
| Day15a.ExampleStepsPlain | day15a/src/main.rs:3 | no example step holds a comma |
| Day15a.ExampleHashes | day15a/src/main.rs:3-8 | the example's hashes, in order |
| Day15a.ExampleSum | day15a/src/main.rs:9 | the example's hashes add up to 1320 |
| Day15a.ExampleSolution | day15a/src/main.rs:24-29 | the example, its steps joined by commas, gives 1320 |
| Day15b.Label | day15b/src/main.rs:16 | the label is the longest prefix of letters |
| Day15b.Digits | day15b/src/main.rs:22-25 | the digits of the step, in order |
| Day15b.FirstWith | day15b/src/main.rs:30-36 | the slot of the first lens with the label, or None when no lens has it |
| Day15b.Without | day15b/src/main.rs:20 | after `retain` no lens has the label |
| Day15b.Lookup | day15b/src/main.rs:29-36 | a box holds a focal length for a label exactly when a lens has that label |
| Day15b.WithoutKeeps | day15b/src/main.rs:20 | `retain` keeps exactly the lenses with other labels |
| Day15b.WithoutAppend | day15b/src/main.rs:20 | `retain` keeps the order of the lenses |
| Day15b.WithoutMissing | day15b/src/main.rs:20 | removing a missing label changes nothing |
| Day15b.WithoutDistinct | day15b/src/main.rs:20 | removal keeps the labels of a box distinct |
| Day15b.WithoutLookup | day15b/src/main.rs:19-20 | after a `-` step the label is gone from its box and every other label keeps its focal length |
| Day15b.PutLookup | day15b/src/main.rs:29-43 | after an `=` step the label has the new focal length and every other label keeps its own |
| Day15b.FirstWithSame | day15b/src/main.rs:31-34 | changing a focal length keeps the slot where a label is found |
| Day15b.FirstWithOther | day15b/src/main.rs:32 | changing one lens's focal length changes no other label's |
| Day15b.FirstWithPrefix | day15b/src/main.rs:38-43 | a lens pushed at the back is found only when no earlier lens has its label |
| Day15b.PutDistinct | day15b/src/main.rs:29-43 | an `=` step keeps the labels of a box distinct |
| Day15b.Apply | day15b/src/main.rs:15-45 | a step keeps the 256 boxes |
| Day15b.ApplyOneBox | day15b/src/main.rs:15-45 | a step changes only box HASH(label), keeps its labels distinct and removes the label or sets its focal length; it panics exactly for an `=` step whose digits do not parse |
| Day15b.Run | day15b/src/main.rs:15 | the steps in order keep the 256 boxes |
| Day15b.RunDistinct | day15b/src/main.rs:13-45 | no box ever holds two lenses with the same label |
| Day15b.RunPanics | day15b/src/main.rs:27 | once a step panics, the run does |
| Day15b.Empty | day15b/src/main.rs:13 | 256 empty boxes |
| Day15b.EmptyPower | day15b/src/main.rs:47-56 | empty boxes have no focusing power |
| Day15b.BoxPowerScales | day15b/src/main.rs:54 | a box's power is its slot-weighted focal lengths times its number plus one |
| Day15b.EmptyInput | day15b/src/main.rs:15-27 | an empty input is the one step "", which has no digit to parse, so it panics |
| Day15b.FirstExampleStep | day15b/src/main.rs:15-45 | the step "rn=1" on empty boxes puts the lens rn with focal length 1 into box 0 |
| Day15b.NoLensNoPower | day15b/src/main.rs:47-56 | with no lens in any box the power is 0 |
| Day15b.SetFocal | day15b/src/main.rs:29-36 | the `iter_mut` loop sets the focal length of the first lens with the label, and `found` says whether there was one |
| Day15b.Step | day15b/src/main.rs:15-45 | one step on the array of boxes, in place, does what Apply says, or panics when Apply does |
| Day15b.Solution | day15b/src/main.rs:12-57 | the focusing power of the boxes after every step, or a panic |
| Day16a.Get | day16a/src/main.rs:16-25 | a tile exactly for a coordinate on the board (None for a negative one or past the edge), and then the tile there |
| Day16a.Add | day16a/src/main.rs:65-76 | a move changes one coordinate by one, in the direction's axis and sense |
| Day16a.AddOpposite | day16a/src/main.rs:65-76 | moving back the other way returns to the same cell |
| Day16a.Deflect | day16a/src/main.rs:124-147 | the `match (char, &dir)` panics exactly on an unknown tile |
| Day16a.DeflectKeeps | day16a/src/main.rs:125-145 | empty space keeps the beam, and only a splitter spawns a second beam |
| Day16a.MirrorReversible | day16a/src/main.rs:126-133 | a mirror turns a beam onto the other axis, spawns nothing, and sends a reversed beam back the way it came |
| Day16a.SplitterSplits | day16a/src/main.rs:134-145 | a splitter passes a beam along its axis; one across it goes on along the axis and spawns one in the opposite direction |
| Day16a.Successors | day16a/src/main.rs:108-149 | a beam has successors exactly when it is on the board and its tile does not panic |
| Day16a.SplitExample | day16a/src/main.rs:141-145 | a beam going East into `|` goes North and spawns one going South in the next cell |
| Day16a.InKeys | day16a/src/main.rs:109 | every on-board (cell, direction) pair is a key the tracer can record |
| Day16a.ReachesNext | day16a/src/main.rs:104-150 | a successor of a reachable beam is reachable |
| Day16a.ReachesStart | day16a/src/main.rs:102 | the entry beam is reachable |
| Day16a.TracingStart | day16a/src/main.rs:97-102 | the trace invariant holds with nothing seen and the entry beam pending |
| Day16a.TracingSeen | day16a/src/main.rs:110-111 | dropping a beam already seen keeps the invariant |
| Day16a.TracingOff | day16a/src/main.rs:108 | dropping a beam off the board keeps the invariant |
| Day16a.TracingStep | day16a/src/main.rs:113-149 | recording a beam and pushing its successors keeps the invariant |
| Day16a.ClosedHoldsPath | day16a/src/main.rs:104-151 | with nothing pending, every beam on a path from the entry is seen or off the board |
| Day16a.TracingDone | day16a/src/main.rs:104-151 | with nothing pending, the seen pairs are exactly the reachable on-board pairs |
| Day16a.FewerLeft | day16a/src/main.rs:113 | recording a new pair leaves one fewer unrecorded |
| Day16a.CellsCount | day16a/src/main.rs:5-14 | there is one cell per tile |
| Day16a.KeysCount | day16a/src/main.rs:97 | there are four (cell, direction) pairs per tile |
| Day16a.EnergizedBound | day16a/src/main.rs:153-157 | the energized cells are at most the tiles of the board |
| Day16a.LitBound | day16a/src/main.rs:97 | at most four pairs per tile are lit |
| Day16a.Follow | day16a/src/main.rs:105-150 | the inner `while let` follows one beam: it records only new pairs, pushes the spawned beams, keeps the trace invariant, and panics only when a reachable tile is unknown |
| Day16a.Solution | day16a/src/main.rs:94-158 | the count of energized cells, i.e. cells of pairs reachable from (0, 0) going East, or a panic exactly when a reachable tile is unknown; the tracer processes at most four pairs per tile |
| Day16b.Sweep | day16b/src/main.rs:109-159 | the inner loop, which on a seen pair pops the next beam instead of stopping, records only new pairs, keeps the trace invariant and panics only when a reachable tile is unknown |
| Day16b.IlluminateBoard | day16b/src/main.rs:101-166 | the count of cells reached from the given entry beam, or a panic exactly when a reachable tile is unknown |
| Day16b.RowEntries | day16b/src/main.rs:175-182 | two entries per row |
| Day16b.ColEntries | day16b/src/main.rs:184-191 | two entries per column |
| Day16b.RowEntriesHold | day16b/src/main.rs:176-181 | row i is entered going East at column 0 and going West at the last column |
| Day16b.ColEntriesHold | day16b/src/main.rs:185-190 | column j is entered going South at row 0 and going North at the last row |
| Day16b.RowEntriesExactly | day16b/src/main.rs:175-182 | the row entries are exactly the East beams at column 0 and the West beams at the last column |
| Day16b.ColEntriesExactly | day16b/src/main.rs:184-191 | the column entries are exactly the South beams at row 0 and the North beams at the last row |
| Day16b.EdgesEnter | day16b/src/main.rs:173-191 | on a rectangular board with a column, the entries tried are exactly the on-board beams that come from outside the board |
| Day16b.Largest | day16b/src/main.rs:193 | `max()` is None exactly for no scores, else a score that bounds every score |
| Day16b.PartOneEntry | day16b/src/main.rs:176 | the entry of part one is among the entries tried |
| Day16b.Attempt | day16b/src/main.rs:176 | one more score is the energized count of its entry, or a panic when that entry jams |
| Day16b.BestScore | day16b/src/main.rs:193 | the largest score bounds the energized count of every entry tried and is the count of one of them |
| Day16b.ScoreRows | day16b/src/main.rs:175-182 | the scores of every row entry, or a panic when one jams |
| Day16b.ScoreCols | day16b/src/main.rs:184-191 | the scores of every column entry after the row scores, or a panic when one jams |
| Day16b.Solution | day16b/src/main.rs:168-194 | the largest energized count over all edge entries, reached by one of them; a panic exactly for an empty board (`size`) or when some entry jams |
| Day17a.Get | day17a/src/main.rs:79-88 | a heat loss exactly for a coordinate on the grid, and then the digit there |
| Day17a.FromInput | day17a/src/main.rs:59-70 | parsing succeeds exactly when every character is a decimal digit, and then keeps the shape and each digit's value |
| Day17a.NeighborsLead | day17a/src/main.rs:91-105 | every edge goes to the on-grid neighbour in its direction, at that block's heat loss |
| Day17a.NeighborsOrdered | day17a/src/main.rs:31 | the edges come in the order North, East, South, West |
| Day17a.NeighborsCover | day17a/src/main.rs:91-105 | every on-grid neighbour has an edge |
| Day17a.PathPrefix | day17a/src/main.rs:155-178 | a prefix of a walk is a walk |
| Day17a.PathStarts | day17a/src/main.rs:149-153 | every walk begins at (0, 0) |
| Day17a.PathLinked | day17a/src/main.rs:161 | each step of a walk goes to an on-grid neighbour |
| Day17a.PathCostPrefix | day17a/src/main.rs:162 | heat losses are non-negative, so a prefix of a walk costs no more than the walk |
| Day17a.PathExtend | day17a/src/main.rs:161-162 | a walk extended by a neighbour costs that neighbour's heat loss more |
| Day17a.StartFree | day17a/src/main.rs:149 | reaching the start costs nothing |
| Day17a.Cmp | day17a/src/main.rs:128-132 | the reversed `Ord`: a visit is Greater exactly when it has lost less heat |
| Day17a.Pop | day17a/src/main.rs:155 | `BinaryHeap::pop` removes one visit of the queue, one with the least heat lost (largest under the reversed order) |
| Day17a.Crossing | day17a/src/main.rs:161-177 | once every visited block is relaxed, any walk that leaves the visited set reaches its first unvisited block at no less than that block's recorded cost |
| Day17a.Cheapest | day17a/src/main.rs:155 | a popped unvisited visit with least heat costs no more than any walk to its block |
| Day17a.PoppedSettles | day17a/src/main.rs:155-159 | the block of a popped, unvisited, least-heat visit has its recorded cost, and that cost is optimal |
| Day17a.Unexpanded | day17a/src/main.rs:166-170 | an edge that lowers a cost never leads into a visited block |
| Day17a.RelaxEdge | day17a/src/main.rs:162-176 | one edge: the target's cost is at most the new cost, no cost rises, visited costs stay, and the invariants hold |
| Day17a.Relax | day17a/src/main.rs:161-177 | the `for neighbor` loop: after it every edge of the vertex is relaxed, no cost rises and visited costs stay |
| Day17a.RelaxedAfter | day17a/src/main.rs:161-177 | after relaxing, the vertex joins the relaxed visited set |
| Day17a.Skip | day17a/src/main.rs:156-158 | popping a visit whose block is already visited keeps the invariant and shrinks the queue |
| Day17a.Expand | day17a/src/main.rs:155-160 | popping a new visit settles its block at its optimal cost |
| Day17a.Resume | day17a/src/main.rs:155-178 | after relaxing the popped block the search invariant holds again |
| Day17a.Closed | day17a/src/main.rs:155-178 | when the queue empties, every block a walk reaches is visited |
| Day17a.Finished | day17a/src/main.rs:155-178 | when the queue empties, the costs are exactly the reachable blocks, each at its least heat lost, and the start at 0 |
| Day17a.ShortestPaths | day17a/src/main.rs:140-178 | Dijkstra's loop gives exactly the reachable blocks their least heat lost, the start 0, and expands each block once |
| Day17a.Solution | day17a/src/main.rs:140-183 | the least heat lost reaching the bottom-right block; a panic exactly for a non-digit, an empty grid or an unreachable corner |
| Day18b.ParseDir | day18b/src/main.rs:20-30 | a direction exactly for "U", "R", "D" or "L"; any other text panics |
| Day18b.LetterRoundTrip | day18b/src/main.rs:20-30 | the plan letter of a direction reads back as that direction, and a letter that reads is that direction's letter |
| Day18b.Scale | day18b/src/main.rs:58-67 | multiplying a run keeps its direction and multiplies its length |
| Day18b.MoveIsWalk | day18b/src/main.rs:77-89 | moving by a run of k is k single steps (`Add<Dir>`) the same way |
| Day18b.MoveJoins | day18b/src/main.rs:77-89 | two runs the same way make one run of the combined length |
| Day18b.SplitFirst | day18b/src/main.rs:95 | a piece without a space is split off whole |
| Day18b.SplitPlanLine | day18b/src/main.rs:95-97 | the first two pieces of a plan line are its letter and its length |
| Day18b.ParsePlanLine | day18b/src/main.rs:94-100 | a plan line reads as its run, whatever colour follows |
| Day18b.ParseLineShort | day18b/src/main.rs:97 | a line without a second piece panics |
| Day18b.Area | day18b/src/main.rs:103-139 | the area panics exactly when the plan does not come back to the origin |
| Day18b.Points | day18b/src/main.rs:108-116 | one vertex more than runs, starting at (0, 0), each the previous moved by its run |
| Day18b.Next | day18b/src/main.rs:126 | `cycle().skip(1)` pairs each vertex with the next, the last with the first |
| Day18b.TrapezoidCross | day18b/src/main.rs:128 | each term of the sum is the negated cross product plus a telescoping difference |
| Day18b.ChainCross | day18b/src/main.rs:124-129 | summed along a chain, the terms are the negated cross sum plus the difference of the ends |
| Day18b.CyclicIsChain | day18b/src/main.rs:120-127 | the cyclic sum over a closed loop is the chain sum back to its start |
| Day18b.ChainTerms | day18b/src/main.rs:124-129 | the chain sum is the sum of its edge terms |
| Day18b.AreaIsShoelace | day18b/src/main.rs:103-139 | the area panics exactly when the plan does not close, and otherwise is half the absolute cross sum plus half the perimeter plus one |
| Day18b.Solution | day18b/src/main.rs:91-140 | the solution panics exactly on an unreadable line or an unclosed plan, and otherwise is the shoelace area of the plan |
| Day18b.RectangleSum | day18b/src/main.rs:124-129 | an a by b rectangle has cross sum twice its area |
| Day18b.RectanglePerimeter | day18b/src/main.rs:103-106 | a rectangle's perimeter is the sum of its four sides |
| Day18b.Rectangle | day18b/src/main.rs:103-139 | dug around an a by b rectangle, the lagoon holds (a + 1) * (b + 1) cubes |
| Day19a.CmpStrict | day19a/src/main.rs:12-17 | both comparisons are strict, and Gt is Lt with its operands swapped |
| Day19a.DecideFirstMatch | day19a/src/main.rs:44-72 | a pass of `for rule in flow` fails through exactly when every rule fails, picks a destination exactly when a rule fires after all earlier ones failed, and panics exactly when a missing category is met after all earlier rules failed |
| Day19a.EvaluateSettled | day19a/src/main.rs:43-73 | more passes do not change an evaluation that has ended |
| Day19a.ApplySettled | day19a/src/main.rs:40-74 | the verdict of a halting part does not depend on the bound chosen |
| Day19a.AllFailRunsForever | day19a/src/main.rs:43-73 | a workflow whose rules all fail for a part makes `loop` run the same workflow forever |
| Day19a.DecideSkip | day19a/src/main.rs:44-72 | a rule that fails passes the decision to the next rule |
| Day19a.ApplyWorkflows | day19a/src/main.rs:40-74 | the loop's verdict is the one the evaluation from `in` reaches, a panic on a missing workflow or category included |
| Day19a.TotalOfRatings | day19a/src/main.rs:129-139 | summing a part's map values in whatever order gives x + m + a + s |
| Day19a.Solution | day19a/src/main.rs:124-140 | the sum of the ratings of the accepted parts; a panic exactly when evaluating some part panics |
| Day19b.CarryS | day19b/src/main.rs:127-128 | after the last s the count and cleanness carry to the next a |
| Day19b.CarryA | day19b/src/main.rs:126-127 | after the last a they carry to the next m |
| Day19b.CarryM | day19b/src/main.rs:124-126 | after the last m they carry to the next x |
| Day19b.AllPrior | day19b/src/main.rs:124-142 | past the last combination every accepted combination has been counted, and none panicked |
| Day19b.PriorStep | day19b/src/main.rs:134-136 | one combination more adds one exactly when it is accepted |
| Day19b.CleanStep | day19b/src/main.rs:134 | one combination more stays clean exactly when it does not panic |
| Day19b.Visit | day19b/src/main.rs:129-136 | the loop body counts the combination when accepted and panics only when some combination does |
| Day19b.Solution | day19b/src/main.rs:122-142 | the number of accepted combinations with every rating in 1..=4000, at most 4000^4; a panic exactly when some combination panics |
| Day20Config.ParseName | day20a/src/main.rs:108-122 | `%` makes a flip-flop and `&` a conjunction, each named without its prefix; `broadcaster` is the broadcaster; anything else panics |
| Day20Config.Parse | day20a/src/main.rs:104-123 | the lines parse exactly when each line does, into one declaration per line, in order |
| Day20Config.ParseEach | day20a/src/main.rs:104-106 | each line is parsed on its own |
| Day20Config.ParseGrow | day20a/src/main.rs:104 | parsing one line more appends that line's declaration |
| Day20Config.ParseRender | day20a/src/main.rs:105-106 | a declaration written out as `<name> -> <output>, ...` parses back to itself |
| Day20a.FlipFlopStep | day20a/src/main.rs:32-45 | a high pulse (or none) leaves a flip-flop alone and it sends nothing; a low pulse flips it, and it sends High when turned On and Low when turned Off |
| Day20a.FlipFlopParity | day20a/src/main.rs:32-45 | a flip-flop that starts Off is On exactly after an odd number of low pulses |
| Day20a.FlipFlopTwoLows | day20a/src/main.rs:35-42 | two low pulses bring a flip-flop back to Off, sending High then Low |
| Day20a.ConjunctionStep | day20a/src/main.rs:70-86 | a real pulse from a registered input updates exactly that input's memory entry, and the conjunction then sends Low exactly when every entry is On; a pulse from an unregistered input panics (`unwrap`); no pulse changes nothing |
| Day20a.ConjunctionInverts | day20a/src/main.rs:70-86 | a conjunction with one registered input is an inverter |
| Day20a.ConjunctionRemembersLast | day20a/src/main.rs:70-86 | after a run of pulses a conjunction remembers, for each input, the level of the last pulse from it, and its registered inputs do not change |
| Day20a.FlipFlop.constructor | day20a/src/main.rs:24-30 | a new flip-flop has its name and outputs and starts Off |
| Day20a.FlipFlop.Process | day20a/src/main.rs:32-45 | in place, the new state and the pulse sent are the flip-flop step's |
| Day20a.Conjunction.constructor | day20a/src/main.rs:56-62 | a new conjunction has its name and outputs and no remembered input |
| Day20a.Conjunction.AddInputs | day20a/src/main.rs:64-68 | every listed input is registered as Off, and nothing else changes |
| Day20a.Conjunction.Process | day20a/src/main.rs:70-86 | in place, the memory and the pulse sent are the conjunction step's, and it panics exactly when that step does |
| Day20a.Send | day20a/src/main.rs:186-211 | one signal per output, in the order of the outputs, from the module, all at its level |
| Day20a.CountSend | day20a/src/main.rs:175-211 | sending one level to n outputs counts n pulses of that level and none of the other |
| Day20a.DeliverPanics | day20a/src/main.rs:182-216 | a delivery panics exactly when the destination is not a module, or when a real pulse reaches a conjunction from an input it never registered |
| Day20a.DeliverKeepsWiring | day20a/src/main.rs:182-216 | a delivery changes at most the destination and keeps every module's kind, outputs and registered inputs |
| Day20a.DeliverToSinkIgnored | day20a/src/main.rs:215 | a pulse reaching the broadcaster or an output sink changes nothing and sends nothing |
| Day20a.DeliverSends | day20a/src/main.rs:183-214 | what a delivery sends goes to every output of the destination, in output order, at one real level |
| Day20a.RunStep | day20a/src/main.rs:181-217 | one turn of the `while let` delivers the front signal and pushes what it provokes at the back |
| Day20a.RunKeepsWiring | day20a/src/main.rs:181-217 | a finished run keeps the wiring of the network |
| Day20a.RunDeliversInOrder | day20a/src/main.rs:169-181 | the queue is first in, first out: a finished run delivers the queued signals first and in queue order |
| Day20a.RunStaysInNetwork | day20a/src/main.rs:182 | a finished run only delivers to names of the network |
| Day20a.PressDelivers | day20a/src/main.rs:165-220 | a finished press first delivers the broadcaster's low pulses in output order, delivers only to names of the network (so every broadcaster output is a module), and keeps the wiring |
| Day20a.RunReachesDangling | day20a/src/main.rs:182 | a queued signal to a name that is not a module makes the run panic once the signals ahead of it are delivered |
| Day20a.DanglingBroadcasterOutput | day20a/src/main.rs:132-148 | the loader resolves only flip-flop and conjunction outputs, so a broadcaster output that is not a module makes a press panic |
| Day20a.SameWiringKeeps | day20a/src/main.rs:182-216 | two networks with the same wiring are equally well wired and accept the same signals |
| Day20a.DeliverableSends | day20a/src/main.rs:182-216 | on a well-wired network a deliverable signal is delivered without panic, the network stays well wired, and everything it sends is deliverable |
| Day20a.WellWiredRunNeverPanics | day20a/src/main.rs:181-217 | on a well-wired network, draining a queue of deliverable signals never panics |
| Day20a.WellWiredPressNeverPanics | day20a/src/main.rs:165-220 | a press on a well-wired network with a broadcaster never panics |
| Day20a.Enqueue | day20a/src/main.rs:173-176 | one signal per output pushed at the back, in output order, each counted at its level |
| Day20a.RunStopsOnPanic | day20a/src/main.rs:182 | a delivery that panics ends the run with a panic |
| Day20a.PressIsRun | day20a/src/main.rs:166-181 | a press is the broadcaster's low pulse to each of its outputs, then the drain |
| Day20a.PulseFlipFlop | day20a/src/main.rs:183 | pulsing the flip-flop of one name changes that name's value only, as its step says |
| Day20a.PulseConjunction | day20a/src/main.rs:200 | pulsing the conjunction of one name changes that name's value only, as its step says, with the same panic |
| Day20a.EmitInPlace | day20a/src/main.rs:184-213 | no pulse pushes nothing; a real one pushes one signal per output, counting each |
| Day20a.DeliverToFlipFlop | day20a/src/main.rs:183-199 | the flip-flop reacts as a delivery says, and what it sends is pushed and counted |
| Day20a.DeliverToConjunction | day20a/src/main.rs:200-214 | the conjunction reacts as a delivery says, and what it sends is pushed and counted, or it panics when the delivery does |
| Day20a.DeliverInPlace | day20a/src/main.rs:182-216 | one signal delivered in place: the modules' values become the delivery's new network, its signals are pushed and counted, and it panics exactly when the delivery does |
| Day20a.AdvanceInPlace | day20a/src/main.rs:181-216 | one turn of the `while let`, in place: the rest of the run is unchanged, and the counters still count the button's pulse and every signal pushed |
| Day20a.Propagate | day20a/src/main.rs:181-219 | the `while let` loop in place: its counts and the modules' new values are those of the drain on the values |
| Day20a.SimulateButtonPress | day20a/src/main.rs:165-220 | a press in place: the low and high counts (the button's pulse included) and the modules' new values are those of the press on the values; it panics without a broadcaster |
| Day20aLoad.DefineLastWins | day20a/src/main.rs:108-119 | `insert` replaces, so a name holds the module of its last declaration |
| Day20aLoad.DefineNames | day20a/src/main.rs:104-123 | the first pass defines exactly the declared names |
| Day20aLoad.DefineInitial | day20a/src/main.rs:24-30 | every module the first pass defines starts Off or with an empty memory |
| Day20aLoad.WireModules | day20a/src/main.rs:129-158 | wiring keeps every flip-flop and broadcaster, gives each conjunction exactly its senders as Off, and adds an Output sink for each dangling gate output and nothing else |
| Day20aLoad.LoadedMemory | day20a/src/main.rs:151-158 | a loaded conjunction remembers Off for exactly the flip-flops and conjunctions that send to it |
| Day20aLoad.LoadedGateOutputs | day20a/src/main.rs:136-148 | every output of a loaded flip-flop or conjunction is a module |
| Day20aLoad.LoadedWellWired | day20a/src/main.rs:101-161 | a loaded network is well wired exactly when the broadcaster sends only to modules that are not conjunctions |
| Day20aLoad.Insert | day20a/src/main.rs:109-119 | a new object for the declaration under its name; the values change at that name only |
| Day20aLoad.DefineModules | day20a/src/main.rs:104-123 | the first pass panics exactly when some line does not parse, and otherwise builds separate new objects whose values are the defined network |
| Day20aLoad.CollectOutputs | day20a/src/main.rs:136-144 | for one gate: each output that is not a module queued as a sink, and the gate added to each output's list of inputs |
| Day20aLoad.FromStep | day20a/src/main.rs:132-146 | visiting one more name adds its outputs and its sender entries if it is a gate, and nothing otherwise |
| Day20aLoad.CollectEdges | day20a/src/main.rs:132-146 | the second pass, in any order, gathers exactly the dangling gate outputs and, for every output, exactly its gate senders, leaving the modules unchanged |
| Day20aLoad.AddInputsAt | day20a/src/main.rs:156 | registering the inputs of one conjunction changes that name's value only |
| Day20aLoad.RegisterOne | day20a/src/main.rs:152-157 | one entry of `module_inputs`: registers the senders when the name is a conjunction |
| Day20aLoad.RegisterInputs | day20a/src/main.rs:151-158 | the third pass succeeds exactly when every name with senders is a module, and then registers every conjunction's senders |
| Day20aLoad.InputsCovered | day20a/src/main.rs:148-154 | after the sinks are added, every name with senders is a module, so the `panic!` in the third pass never fires |
| Day20aLoad.PassesWire | day20a/src/main.rs:129-158 | the three passes together compute the wired network |
| Day20aLoad.LoadModules | day20a/src/main.rs:101-161 | `load_modules` panics exactly when some line does not parse, and otherwise returns separate new objects whose values are the loaded network |
| Day20aSolution.PressesStep | day20a/src/main.rs:230-234 | one more press adds its counts to the running totals |
| Day20aSolution.PressesStayStopped | day20a/src/main.rs:230-234 | once a press panics or runs out of deliveries, the presses after it change nothing |
| Day20aSolution.PressesCountButton | day20a/src/main.rs:166 | each press counts at least the button's own low pulse |
| Day20aSolution.PressesKeepWiring | day20a/src/main.rs:230-234 | pressing never changes the wiring |
| Day20aSolution.WellWiredPressesNeverPanic | day20a/src/main.rs:230-234 | on a well-wired network with a broadcaster no press panics |
| Day20aSolution.SolutionNeverPanics | day20a/src/main.rs:222-237 | a configuration that parses, declares the broadcaster and sends its pulses only to modules that are not conjunctions gives an answer or runs out of deliveries, never a panic |
| Day20aSolution.PressOnce | day20a/src/main.rs:231-233 | one press in place, added to the running totals |
| Day20aSolution.PressTimes | day20a/src/main.rs:227-234 | `n` presses in place give the totals of `n` presses on the values, stopping at the first that panics or runs out |
| Day20aSolution.Solution | day20a/src/main.rs:222-237 | the product of the low and high totals over 1000 presses of the loaded network, or a panic from loading or pressing |
| Day20b.Declared | day20b/src/main.rs:45-53 | a declaration makes a module of its own kind with its outputs, never an Output |
| Day20b.DefineLastWins | day20b/src/main.rs:45-53 | `insert` replaces, so a name holds the module of its last declaration |
| Day20b.DefineNames | day20b/src/main.rs:41-57 | the first pass defines exactly the declared names |
| Day20b.DefineHasNoOutput | day20b/src/main.rs:41-57 | the first pass never defines an Output |
| Day20b.LoadKeepsDefined | day20b/src/main.rs:73 | adding the sinks replaces no declared module |
| Day20b.LoadAddsSinks | day20b/src/main.rs:59-73 | every added name is an Output sink for an output of some flip-flop or conjunction |
| Day20b.LoadClosed | day20b/src/main.rs:59-73 | after loading, every output of a flip-flop or conjunction is a module |
| Day20b.LoadedLine | day20b/src/main.rs:38-76 | a line that renders a declaration and is not redeclared later loads as that module, outputs in listed order |
| Day20b.DefineModules | day20b/src/main.rs:41-57 | the first pass panics exactly when some line does not parse, and otherwise is the defined map |
| Day20b.CollectDangling | day20b/src/main.rs:65-69 | the outputs of one gate that are not modules are queued as sinks |
| Day20b.DanglingStep | day20b/src/main.rs:61-71 | visiting one more name adds its dangling outputs if it is a gate, and nothing otherwise |
| Day20b.InsertSinks | day20b/src/main.rs:59-73 | the second pass, in any order, adds exactly the sinks for the dangling gate outputs |
| Day20b.LoadModules | day20b/src/main.rs:38-76 | `load_modules` panics exactly when some line does not parse, and otherwise is the loaded map |
| Day21a.LastStart | day21a/src/main.rs:59-66 | the position of the last `S` of a line, None exactly when the line has none |
| Day21a.StartOf | day21a/src/main.rs:50-65 | the last `S` in reading order (each one overwrites `start`), and (0, 0) when the map has none |
| Day21a.FromInput | day21a/src/main.rs:49-73 | parsing succeeds exactly when every character is `#`, `.` or `S`; it keeps the shape, makes `#` exactly the rocks, and starts at the last `S` |
| Day21a.Get | day21a/src/main.rs:82-91 | a plot exactly for a coordinate on the map, and then the plot there |
| Day21a.StepExactly | day21a/src/main.rs:106-113 | a step reaches exactly the garden plots next to some position of the frontier |
| Day21a.StepJoin | day21a/src/main.rs:106-113 | stepping a frontier one position larger adds that position's reached plots |
| Day21a.DistanceStep | day21a/src/main.rs:23-34 | a move changes the distance to any point by exactly one |
| Day21a.FrontierWithin | day21a/src/main.rs:103-116 | after k steps every position is at most k plots from the start, at a distance with the parity of k |
| Day21a.Spread | day21a/src/main.rs:107-112 | the inner `for dir` adds exactly the garden plots next to the position |
| Day21a.Advance | day21a/src/main.rs:104-115 | one turn builds the next frontier from every position, in any order |
| Day21a.Solution | day21a/src/main.rs:94-119 | the number of plots the frontier holds after `steps` steps, 1 with no steps; a panic exactly on an unknown symbol |
| Day21b.Rem | day21b/src/main.rs:92-93 | Rust's `%` on `i32`: the remainder has the dividend's sign and is smaller than the divisor in size |
| Day21b.Wrap | day21b/src/main.rs:92-101 | `%` then adding the size to a negative remainder gives the Euclidean remainder |
| Day21b.WrapCases | day21b/src/main.rs:92-101 | a negative remainder plus the size, or a non-negative one, is the Euclidean remainder |
| Day21b.GetPanics | day21b/src/main.rs:84-108 | `get` panics exactly on an empty map, an empty first row, or a row too short at the reduced column, and otherwise reads the plot at the coordinates taken modulo the height and the first row's width |
| Day21b.GetWraps | day21b/src/main.rs:90-108 | on a rectangular map `get` never panics and reads the plot at the coordinates modulo the map's height and width |
| Day21b.GetOnBoard | day21b/src/main.rs:90-108 | on the map itself `get` is the plain lookup |
| Day21b.ModShift | day21b/src/main.rs:92-101 | shifting by the size leaves the remainder unchanged |
| Day21b.GetPeriodic | day21b/src/main.rs:90-108 | the infinite map repeats with the map's height down and the first row's width across, panics included |
| Day21b.StepExactly | day21b/src/main.rs:166-173 | a step that does not panic reaches exactly the garden plots next to some position of the frontier |
| Day21b.FrontierDefined | day21b/src/main.rs:160-182 | on a rectangular map the walk never panics |
| Day21b.Spread | day21b/src/main.rs:167-172 | the inner `for dir` adds exactly the garden plots next to the position, and panics exactly when `get` does for a neighbour |
| Day21b.MovesJoin | day21b/src/main.rs:166-173 | the plots reached from a frontier one position larger add that position's plots |
| Day21b.DefinedJoin | day21b/src/main.rs:166-173 | a frontier one position larger steps without panic exactly when both parts do |
| Day21b.Advance | day21b/src/main.rs:164-175 | one turn builds the next frontier, or panics, as the step function says |
| Day21b.PanicSticks | day21b/src/main.rs:160-182 | once a step panics, so does every longer walk |
| Day21b.Walk | day21b/src/main.rs:157-182 | the frontier loop yields the frontier after `steps` steps, or its panic |
| Day21b.Solution | day21b/src/main.rs:151-185 | as written: it panics exactly when parsing or the walk does, and otherwise returns 0 |
| Day21b.CountPlots | day21b/src/main.rs:151-185 | as evidently intended: the number of plots in the frontier after `steps` steps, 1 with no steps, with the same panics |
| Day21b.SingleParsed | day21b/src/main.rs:57-81 | the map "S" parses to a single garden plot starting at (0, 0) |
| Day21b.SingleAllGarden | day21b/src/main.rs:90-108 | every position of the repeated one-plot map is a garden plot |
| Day21b.SingleStep | day21b/src/main.rs:166-173 | one step from the one plot reaches its four neighbours |
| Day21b.OnePlotMap | day21b/src/main.rs:151-185 | the map "S" parses, and its frontier after one step is the four neighbours of the start, so 4 plots |

## Left out

- Every `main`, the `include_str!` input loading and every `println!`, including the progress prints of day21b/src/main.rs:161-163, day19b/src/main.rs:125 and day12a/src/main.rs:30. These are I/O, so the puzzle input and example files are not part of this model.
- The regular-expression line parsing of day02a, day02b, day08a, day08b, day19a and day19b uses the foreign `regex` crate. These solutions start from the parsed records: draws, node records, workflows and ratings.
- Day19a.Solution and Day19b.Solution: they start after `Workflow` and part parsing, so a malformed line's panic is not modelled.
- The interactive code behind `cfg(feature = "interactive")` is rendering: day16a/src/main.rs:27-49 and 87-92, day16b/src/main.rs:33-55 and 93-98, day21b/src/main.rs:110-149.
- day21b's `Add` for `(i32, i32)` (day21b/src/main.rs:36-42) is left out because only the visualisation uses it.
- The `Display` impls and `print_step` of day10b/src/main.rs:118-135 and 313-348 are rendering.
- `print_board` (day11a/src/main.rs:3-17) is rendering.
- The mermaid diagram printer (day20b/src/main.rs:78-129) is rendering.
- The `f32` progress percentage of day05b/src/main.rs:57-59 is floating point. The model keeps only the `divs` division that guards it.
- The `num` crate's `lcm` (day08b/src/main.rs:1, 55) is a foreign crate. `Common.Lcm` is defined from Euclid's gcd instead and proved to be the least common multiple.
- The repository has no period-finding or convergence search for the pulse network (day20b/src/main.rs:131), so no such search is modelled.
- The Unicode meaning of `char::is_numeric` and `char::is_alphabetic` is not modelled. Days 1, 3 and 15 treat ASCII digits and ASCII letters only, and the byte-index versus char-index mismatch of `chars().nth(idx)` in day 1 is out of scope.
- Day15a.Mix, Day15a.Hash: the source folds the UTF-8 bytes of a step (`as_bytes()`, day15a/src/main.rs:5 and day15b/src/main.rs:7), while the model folds character codes. The two agree on ASCII text. A non-ASCII character, which is several bytes, hashes differently. Day 15 part two uses the same Hash.
- Machine-integer overflow of `usize`, `u32`, `u64`, `i32` and `i64` in sums, products, shoelace terms and step counts is not modelled (see the Day01a.Solution line below). Integers are unbounded, except where a width matters to the result. The `% 256` of day 15's hash, the `u16` ratings of day 19, the `u32` parses of day 3, the `u32` `pow` of day 4 and the truncating `%` of day 21b are written out. The `u64` answers of day18b and day19a are unbounded too. The `usize` row and column numbers of day 13 are not (see Day13a.Hash below).
- Day01a.Solution, Day01a.SolutionSums, Day01b.Solution, Day03a.Solution, Day03b.Solution, Day04a.Solution, Day04a.SolutionPanics: these sums and products are `u32` in the source but unbounded in the model.
  - The affected operations are the line sums of day 1 (day01a/src/main.rs:4-16, day01b/src/main.rs:50-52), the kept-part sum of day 3 (day03a/src/main.rs:78), the gear product `gear.1 *= part.val` and the ratio sum of day 3 part two (day03b/src/main.rs:72, 82-93), and the card-score sum of day 4 (day04a/src/main.rs:34).
  - Once a running total reaches 2^32, the source panics in a debug build and wraps in a release build, while the model goes on counting. For example, the schematic `99999*99999` gives 9999800001 in the model, and two cards with 32 matches each give 2^32.
  - So Day04a.SolutionPanics's "panics exactly when some card has more than 32 matches" holds only while the total of the scores stays below 2^32. Likewise, the panic conditions of the other members above leave out the overflow of their sum.
- Day06a.LineNumbers: Rust's `trim` (day06a/src/main.rs:8) is not modelled. For spaces this changes nothing, since a space only adds an empty piece, which is dropped (Day06a.LeadingSpaceIgnored). But `trim` also strips tabs and other whitespace, so a number written with a tab at either end of the list, such as "\t7", is read by the source and dropped by the model.
- Day07b.Solution: after `sort_by_key` (day07b/src/main.rs:87), the labels of equal counts come out in `HashMap` order, which is arbitrary. The model keeps only the sorted counts, and the hand type depends on nothing else.
- Walks that never end are not proved to terminate. These are the walks of day 8 that never reach `ZZZ` or a `Z` node and the workflows of day 19 that loop. Each solution takes a bound within which the walk ends, as a precondition.
- Day20aSolution.Solution: a thousand presses that need more than `fuel` pulse deliveries end as `SolveOutOfFuel` rather than running on.
- day19b's 4000⁴ combinations are not executed. The count is specified as the size of the set of accepted combinations.
- Some test expectations cannot hold of the code as written and are not claimed: day12a/src/main.rs:89 and 97, day17a/src/main.rs:210, day19b/src/main.rs:161 and 167, day21b/src/main.rs:207 and 215. So does day05b/src/main.rs:97 (46): the example's seed line `79 14 55 13` stands for 27 seeds (Day05b.ExampleSeedCount), fewer than a hundred, so `i % divs` divides by zero and Day05b.Solution panics.
- Day17a.Solution: the source has a TODO at day17a/src/main.rs:164 for a limit on straight runs but never applies one. The model follows the code: a plain shortest path over the grid's digit costs.
- The colour field of each day 18 plan line is not modelled: the source reads only the direction letter and the run length (day18b/src/main.rs:95-97), and so does the model.
- Most example answers asserted by the source's tests are not proved. The example lemmas in the table cover days 6, 7, 8, 9 and 15, and single patterns of day 13; day 6's 71503 is proved for lines already read as its two numbers. The rest would require the verifier to unfold a solver over a whole example grid or text (ten to a hundred-odd cells or characters, set comprehensions and nested recursion), which exceeds its resource limit: 4361 (day03a), 467835 (day03b), 13 (day04a), 30 (day04b), 35 (day05a), 8 (day10a), 4, 4, 8 and 10 (day10b), 374 (day11a), 8410 (day11b), 525152 (day12b), 405 (day13a), 400 (day13b), 136 (day14b), 145 (day15b), 46 (day16a), 51 (day16b), 78 (day17a), 62 (day18b), 19114 (day19a), 16 (day21a), and 32000000 and 11687500 (day20a/src/main.rs:255, 263), which take a thousand simulated button presses each.
- Day10a.LoopLength, Day10a.Solution, Day10b.Field.ClearJunk, Day10b.WalkLoop, Day10b.Solution: the walk round the loop ends on every field, within one more turn than the field has cells, because it never visits a cell twice before it comes back to the start or panics. That measure is not proved. These members take a ghost `bound` and require `Halts` within it instead. A panic counts as ending, so every field meets the requirement with its cell count plus one as the bound.
- Day10b.Solution: the left and right tallies are proved to count disjoint sets of empty cells of the cleared grid. That the answer is the interior of the loop (the Jordan curve argument) is not proved.
- Day13a.Hash: the source folds each row and column into a `usize` with `<< 1`, which drops the top bit. A line or column of more than 64 cells therefore keeps only its last 64 cells, and two such lines that differ only earlier compare equal. The model's number is unbounded, so it agrees with the source only up to 64 cells, the size the comment at day13a/src/main.rs:55 assumes. Day13b uses the same fold.
- Day13a.Solution: blocks of two or more lines are required to be rectangular. The source reads columns by byte offset, and a ragged block's behaviour is not modelled.
- Day13b.Solution: the same rectangular-block requirement as Day13a.Solution.
- Day14b.Solution: the lines are required to be equally long. The index panic of a ragged board is not modelled.

## Findings

| source | as written | input that shows it | evidently intended | confidence | as-written member | corrected member |
|---|---|---|---|---|---|---|
| day12a/src/main.rs:31-32 | `&pattern[1..]` is taken before the match, so the call on the last character panics on the empty rest; the base case that counts an arrangement is never reached, and every line gives 0 or a panic | the line `# 1` | one arrangement | not executed | Day12a.SingleDamaged | Day12b.CorrectedLineCount |
| day21b/src/main.rs:184 | `solution` returns the constant 0 instead of the size of the final frontier | the map `S` with 1 step | 4 plots | not executed | Day21b.Solution | Day21b.CountPlots |
