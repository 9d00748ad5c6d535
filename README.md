# Password generator: a verified model

This project models the generation and scoring logic of a browser password
generator widget (`src/components/PasswordGenerator.jsx`). The widget lets the
user tick four character classes (lower case, upper case, digits, symbols) and
pick a length. It then generates a password, rates its strength, and keeps a
history of generated passwords, newest first.

The model covers:

- **CharClasses**: the four fixed alphabets, the class tests the scorer uses
  (`[a-z]`, `[A-Z]`, `[0-9]`, `[^A-Za-z0-9]`), the selected classes in their
  fixed order, and the pool built from them.
- **Shuffle**: `shuffleString`, an in-place Fisher–Yates loop over an array.
  It is proved equal to a recursive specification and proved to return an
  anagram of its input.
- **Generator**: `randomChar` and `generate`. The pool is built. An empty pool
  leads to the placeholder message. Otherwise one mandatory character is drawn
  per ticked class, the filler is drawn from the pool, the mandatory characters
  are appended, and the result is shuffled. The new entry becomes the head of
  the in-memory history.
- **Strength**: `strengthScore` and the label lookup `labels[Math.min(5, strength)]`.
- **History**: the history entry, the in-memory prepend, and the stored copy
  `history.slice(0, 20)`.

Every `Math.random()` draw is an index passed in by the caller, with its
range stated in the precondition. `randomChar(str)` becomes `str[k]` with
`k < |str|`. The shuffle's `Math.floor(Math.random() * (i + 1))` at step `i`
becomes `swaps[i - 1] <= i`. The mandatory draws are one index per class
(`MandatoryDraws`); a class's index is used only when that class is ticked.
The filler draws are `filler[k] < |pool|`. Generation results are therefore
stated for every possible outcome of the random draws. The time stamp of a new
history entry is also a parameter (`now`).

Only the history is passed into `Generate`; it returns the new password and
the new history. The previous password is not an input, because both branches
of lines 54-73 overwrite it.

Two consequences of the code are worth stating:

- `Aa1!aaaa` scores 5: 8 characters earn only one length point
  (`Strength.MixedEightScoresFive`).
- Only the copy written to storage is capped at 20 entries (line 33). The
  in-memory list grows by one entry per generation (`History.InMemoryGrows`).

## Model

| member | source | states |
|---|---|---|
| `CharClasses.Alphabet` | src/components/PasswordGenerator.jsx:3-6 | every class alphabet is non-empty |
| `CharClasses.LowerMatchesTest` | src/components/PasswordGenerator.jsx:94 | a character is in the lower-case alphabet iff it passes the `[a-z]` test |
| `CharClasses.UpperMatchesTest` | src/components/PasswordGenerator.jsx:95 | a character is in the upper-case alphabet iff it passes the `[A-Z]` test |
| `CharClasses.DigitsMatchTest` | src/components/PasswordGenerator.jsx:96 | a character is in the digit alphabet iff it passes the `[0-9]` test |
| `CharClasses.SymbolsAreNotAlnum` | src/components/PasswordGenerator.jsx:97 | every symbol passes the `[^A-Za-z0-9]` test |
| `CharClasses.Count` | src/components/PasswordGenerator.jsx:59-63 | at most four mandatory characters; none exactly when no class is ticked |
| `CharClasses.Selected` | src/components/PasswordGenerator.jsx:59-63 | the ticked classes in the order of the pushes (lower, upper, digit, symbol); `SelectedExactly` proves each ticked class appears exactly once |
| `CharClasses.SelectedExactly` | src/components/PasswordGenerator.jsx:59-63 | a class is selected iff its box is ticked, and each selected class appears once |
| `CharClasses.PoolEmptyIff` | src/components/PasswordGenerator.jsx:48-57 | the pool is empty iff no box is ticked, which is the only way to reach the guard |
| `CharClasses.PoolMembers` | src/components/PasswordGenerator.jsx:48-52 | a character is in the pool iff it is in the alphabet of a ticked class |
| `CharClasses.PoolSize` | src/components/PasswordGenerator.jsx:48-52 | the pool size is the sum of the ticked alphabets' sizes (26, 26, 10, 26) |
| `CharClasses.Pool` | src/components/PasswordGenerator.jsx:48-52 | the ticked alphabets concatenated in class order; its properties are `PoolEmptyIff`, `PoolMembers` and `PoolSize` |
| `Shuffle.Swap` | src/components/PasswordGenerator.jsx:12 | the destructuring swap keeps the length |
| `Shuffle.SwapPermutes` | src/components/PasswordGenerator.jsx:12 | a swap keeps the multiset of characters |
| `Shuffle.ShuffledTo` | src/components/PasswordGenerator.jsx:10-13 | every intermediate array state has the input's length |
| `Shuffle.ShuffledToPermutes` | src/components/PasswordGenerator.jsx:10-13 | every intermediate array state is an anagram of the input |
| `Shuffle.FisherYates` | src/components/PasswordGenerator.jsx:8-15 | the whole shuffle, with the input's length; `ShuffleString` is proved equal to it and `FisherYatesPermutes` proves it returns an anagram |
| `Shuffle.FisherYatesPermutes` | src/components/PasswordGenerator.jsx:8-15 | the shuffle returns an anagram of its input, of the same length, for every choice of swap indices |
| `Shuffle.ShortStringsUnchanged` | src/components/PasswordGenerator.jsx:10 | the loop does nothing on strings shorter than two |
| `Shuffle.IdentityDraws` | src/components/PasswordGenerator.jsx:10-13 | when each step draws its own index, the string is unchanged |
| `Shuffle.ShuffleString` | src/components/PasswordGenerator.jsx:8-15 | the in-place array loop computes the Fisher–Yates specification and returns an anagram of its input |
| `Generator.RandomChar` | src/components/PasswordGenerator.jsx:43-45 | the drawn character occurs in the string drawn from |
| `Generator.Filler` | src/components/PasswordGenerator.jsx:65-68 | one filler character per filler draw |
| `Generator.Mandatory` | src/components/PasswordGenerator.jsx:59-63 | one drawn character per ticked class, in class order; its properties are proved in `MandatoryProperties` |
| `Generator.Placeholder` | src/components/PasswordGenerator.jsx:55 | the message shown when no class is ticked, character for character |
| `Generator.FillerInPool` | src/components/PasswordGenerator.jsx:65-68 | every filler character lies in the pool |
| `Generator.MandatoryProperties` | src/components/PasswordGenerator.jsx:59-63 | one mandatory character per ticked class; the k-th comes from the k-th ticked alphabet; all lie in the pool; every ticked class has one |
| `Generator.AppendProperties` | src/components/PasswordGenerator.jsx:70 | appending the mandatory characters keeps the result within the pool and keeps every class they cover |
| `Generator.PermutationProperties` | src/components/PasswordGenerator.jsx:71 | a rearrangement keeps the result within the pool and keeps every class it covers |
| `Generator.UnshuffledProperties` | src/components/PasswordGenerator.jsx:59-70 | before shuffling, the string has `max(length, #classes)` characters, all from the pool, with one from every ticked class |
| `Generator.GenerationCorrect` | src/components/PasswordGenerator.jsx:59-71 | the shuffled password has `max(length, #classes)` characters, all from the pool, with one from every ticked class, and scores the length points plus one per ticked class |
| `Generator.ClassTestsMatchFlags` | src/components/PasswordGenerator.jsx:94-97 | on a generated password, each scorer class test passes iff its class was ticked |
| `Generator.GeneratedStrength` | src/components/PasswordGenerator.jsx:89-99 | a generated password scores its length points plus its number of ticked classes |
| `Generator.PlaceholderOutsidePools` | src/components/PasswordGenerator.jsx:54-57 | the placeholder's first letter is in no pool, so no generated password equals it |
| `Generator.PlaceholderRating` | src/components/PasswordGenerator.jsx:55 | the placeholder scores 3 and is labelled "good" |
| `Generator.BuildPool` | src/components/PasswordGenerator.jsx:48-52 | the `+=` sequence yields the ticked alphabets concatenated in class order |
| `Generator.DrawMandatory` | src/components/PasswordGenerator.jsx:59-63 | the pushes yield the mandatory characters in class order |
| `Generator.DrawFiller` | src/components/PasswordGenerator.jsx:65-68 | the loop appends one pool character per draw, or none when `length - mandatory.length` is not positive |
| `Generator.Generate` | src/components/PasswordGenerator.jsx:47-78 | with no ticked box: placeholder, history unchanged; otherwise the password is the shuffle of filler then mandatory characters, has `max(length, #classes)` characters, all from the pool, one from every ticked class, scores length points plus #classes, and heads the new history before the old entries |
| `Generator.PoolWithoutSymbols` | src/components/PasswordGenerator.jsx:48-52 | without symbols, every pool character is a letter or a digit |
| `Generator.GenerateTwelveAlphanumeric` | src/components/PasswordGenerator.jsx:47-78 | length 12 with letters and digits ticked gives 12 alphanumeric characters with a lower-case letter, an upper-case letter and a digit |
| `Strength.LengthPoints` | src/components/PasswordGenerator.jsx:92-93 | length earns at most two points |
| `Strength.ClassPoints` | src/components/PasswordGenerator.jsx:94-97 | the class tests earn at most four points |
| `Strength.HasLower` | src/components/PasswordGenerator.jsx:94 | the `[a-z]` test: some character is an ASCII lower-case letter |
| `Strength.HasUpper` | src/components/PasswordGenerator.jsx:95 | the `[A-Z]` test: some character is an ASCII upper-case letter |
| `Strength.HasDigit` | src/components/PasswordGenerator.jsx:96 | the `[0-9]` test: some character is an ASCII digit |
| `Strength.HasOther` | src/components/PasswordGenerator.jsx:97 | the `[^A-Za-z0-9]` test: some character is not an ASCII letter or digit |
| `Strength.StrengthScore` | src/components/PasswordGenerator.jsx:89-99 | the score is at most 6 |
| `Strength.ScoreZeroIffEmpty` | src/components/PasswordGenerator.jsx:89-99 | the score is 0 iff the string is empty; a non-empty string scores at least 1 |
| `Strength.ScoreSixNeedsTwelve` | src/components/PasswordGenerator.jsx:92-97 | score 6 needs at least 12 characters; under 8 characters the score is at most 4 |
| `Strength.EightLowerScoresTwo` | src/components/PasswordGenerator.jsx:89-99 | `aaaaaaaa` scores 2 |
| `Strength.AllClassesAtEightScoresFive` | src/components/PasswordGenerator.jsx:89-99 | 8 characters with all four classes score 5 |
| `Strength.MixedEightScoresFive` | src/components/PasswordGenerator.jsx:89-99 | `Aa1!aaaa` scores 5 |
| `Strength.LabelIndex` | src/components/PasswordGenerator.jsx:110 | the label index is a valid index, equals the score up to 5, and is 5 above it |
| `Strength.Labels` | src/components/PasswordGenerator.jsx:102-109 | the six labels, weakest first, character for character |
| `Strength.StrengthLabel` | src/components/PasswordGenerator.jsx:101-110 | the shown label is one of the six labels |
| `Strength.LabelExtremes` | src/components/PasswordGenerator.jsx:102-110 | "very weak" is shown iff the field is empty; "very strong" iff the score is 5 or 6 |
| `History.Persisted` | src/components/PasswordGenerator.jsx:33 | the stored copy holds the first `min(20, |h|)` entries unchanged and in order |
| `History.Entry` | src/components/PasswordGenerator.jsx:75 | a history entry: the password and its time stamp |
| `History.Prepend` | src/components/PasswordGenerator.jsx:74-77 | the new entry is at index 0, with the previous entries after it in order |
| `History.PersistedIdempotent` | src/components/PasswordGenerator.jsx:33 | capping the stored copy again changes nothing |
| `History.PersistedAfterPrepend` | src/components/PasswordGenerator.jsx:32-34 | after a generation the stored copy is the new entry followed by the first 19 previously stored entries |
| `History.PersistAfterReload` | src/components/PasswordGenerator.jsx:27-34 | the stored copy after a generation is the same whether or not the in-memory history was cut to 20 by a reload |
| `History.InMemoryGrows` | src/components/PasswordGenerator.jsx:74-77 | each generation adds one in-memory entry, newest first; only the stored copy is capped |
| `History.PrependAll` | src/components/PasswordGenerator.jsx:74-77 | the history after several generations in order, each prepending its entry |

## Left out

- React state hooks, effects and rendering (lines 17-25, 112-200): the state is passed into `Generate` and returned from it instead.
- Reading the history from browser storage and the JSON encoding (lines 27-34): this is I/O. Only the `slice(0, 20)` projection is modelled (`History.Persisted`). `History.PersistAfterReload` shows only that the next stored copy does not depend on whether the in-memory list was cut to 20. The order of the two effects on mount is not modelled: the effect at lines 32-34 first stores the initial empty list, before the history loaded at line 29 is rendered.
- The clipboard write (lines 80-83) and the 1.5 s "copied" toast timer (lines 36-41): an asynchronous browser API and a timer.
- `clearHistory` (lines 85-87): it only replaces the history with the empty list. No member is needed to state that.
- `Math.random()` (lines 11, 44): replaced by caller-supplied indices with stated ranges. Uniformity of the draws, and so of the shuffle, is not modelled.
- `new Date().toISOString()` (line 75) and the date formatting (line 192): the time is an opaque string parameter.
- The slider range 4-64 (lines 118-124): `Generate` takes any integer length. The result then has `max(length, #classes)` characters.
- String length: JavaScript counts UTF-16 code units, the model counts characters. The two agree on every string here, since the alphabets are ASCII and the placeholder is Cyrillic from the Basic Multilingual Plane.
- The regular expressions (lines 94-97): modelled as ASCII range tests on single characters.
- `src/App.jsx`: static markup only.
