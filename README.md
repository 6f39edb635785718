# wzrdbrain combo logic in Dafny

A model of the three I/O-free pieces of the wizard-skating combo code:

- **The trick engine** (`src/wzrdbrain/wzrdbrain.py`). It holds the fixed
  domains `DIRECTIONS`, `STANCES`, `MOVES`, `use_fakie` and `exclude_stance`.
  A `Trick` is built in two steps. The dataclass initialiser stores the
  supplied fields. `__post_init__` then validates them in the order
  direction, stance, move, fills the absent ones at random, and flips the
  exit direction for gazelle and lion. `str(trick)` renders the name, and
  `to_dict` gives the fields plus the name. `generate_combo` returns the
  names of freshly built tricks.
  In Dafny this is `Wzrdbrain`: the class `Trick` with the method
  `PostInit`, the specification function `Resolve`, and `Render`, `Record`
  and `GenerateCombo`.
- **The evaluator's parser and rule checks** (`slm/evaluate.py`).
  `parse_combo_from_text` finds the numbered lines with a multiline regular
  expression. It reads each line as an optional direction word, an optional
  stance word and a move. Three counting checks follow: valid moves, the
  only-first placement rule and direction linking. `evaluate_outputs` sums
  their integer counters over a batch of outputs.
  In Dafny this is `Evaluate`. It includes an explicit model of
  `re.findall(r"^\d+\.\s+(.+)$", text, re.MULTILINE)`, backtracking of
  `\s+` included.
- **The data generator's combo code** (`slm/generate_data.py`). It covers
  the plain and detailed numbered layouts, the chat record and its shape
  check, the train/validation/test split, the tier lookups, and the two
  constrained combo builders. In Dafny this is `GenerateData`.

The modules `RoundTrip`, `Properties` and `GeneratedChecks` relate the
pieces. Either text layout of a combo of initialised tricks parses back to
each trick's direction, display direction, stance and move. The enter and
exit directions are not in the text, so the parser cannot recover them. The constrained builders' combos pass the valid-move
check. They also pass the only-first check whenever the only-first set is
disjoint from the moves they draw. When `rotating_moves` agrees with
gazelle and lion on `MOVES`, each trick of either builder's combo that
hands on an exit is linked to the next one.

`Text` models the Python `str` operations the code relies on: `isspace`,
`split()`, `strip()`, `lower()`, `sep.join` and `str(int)`. `Wrappers`
holds `Option` (Python's `None`) and `Result` (a raised exception).

**Randomness.** Every `random.choice` and `random.randint` is an input that
must lie in the domain the call picks from. Properties hold for every
such choice. The three choices inside `__post_init__` form one `Draws`
value; its fields are drawn whether or not the call needs them.

**Names the engine module does not define.** `only_first`, `rotating_moves`
and `SUBSEQUENT_MOVES` are imported by both scripts but are not defined in
`src/wzrdbrain/wzrdbrain.py`. They are parameters of type `set<string>`.
The set of moves drawn after the opening must lie inside `MOVES`. It may
be empty: `random.choice` on it then raises IndexError, which the model
returns as `EmptyChoice`.

**The continuation quirk.** `Trick(direction=d, move=m)` sets `direction`
but leaves `enter_into_trick` and `exit_from_trick` as `None`. Gazelle and
lion are the exception: their exit is flipped. The trick after such a
trick in a constrained combo therefore gets `direction=None` and draws a
fresh direction. `GenerateData.Follow` models this and
`GeneratedChecks.ContinuedTrickDropsExit` states the consequence.
The detailed layout then prints that missing exit as `None`.

## Model

| member | source | states |
|---|---|---|
| `Wzrdbrain.Opposite` | src/wzrdbrain/wzrdbrain.py:86-90 | the flip of a direction is the other direction |
| `Wzrdbrain.Resolve` | src/wzrdbrain/wzrdbrain.py:64-90 | an invalid direction, then stance, then move fails with its ValueError (each iff earlier checks passed); on success the direction and move lie in their domains and supplied ones are kept; a stance is drawn iff it was absent and the move is not in `exclude_stance`; enter/exit equal the direction iff it was drawn and stay as supplied otherwise; the exit is the flip of the direction for gazelle and lion and for no other move |
| `Wzrdbrain.ResolveIdempotent` | src/wzrdbrain/wzrdbrain.py:64-90 | initialising an already initialised trick again changes nothing, whatever is drawn |
| `Wzrdbrain.ResolveBlank` | src/wzrdbrain/wzrdbrain.py:74-90 | `Trick()` never fails; enter is the drawn direction and exit is that direction, flipped for gazelle and lion |
| `Wzrdbrain.RandomTrick` | src/wzrdbrain/wzrdbrain.py:127 | the trick built with no arguments is initialised and is what initialisation yields |
| `Wzrdbrain.DisplayDirectionFakie` | src/wzrdbrain/wzrdbrain.py:95-101 | back and front are shown as fakie and forward on `use_fakie` moves, and the direction is shown unchanged in every other case |
| `Wzrdbrain.RenderShape` | src/wzrdbrain/wzrdbrain.py:92-110 | a shown display direction starts the name and a present move ends it; the name is empty iff the display direction is absent, empty or "null" and stance and move are absent or empty |
| `Wzrdbrain.RenderResolved` | src/wzrdbrain/wzrdbrain.py:92-110 | an initialised trick's name is display direction, stance if present, and move joined by single spaces; the display direction is fakie/forward for `use_fakie` moves going back/front, the direction otherwise |
| `Wzrdbrain.RenderGazelle` | src/wzrdbrain/wzrdbrain.py:92-110 | front/open/gazelle is named "front", "open", "gazelle" joined by single spaces |
| `Wzrdbrain.RenderFakie` | src/wzrdbrain/wzrdbrain.py:92-110 | back/no stance/toe roll is named "fakie toe roll" |
| `Wzrdbrain.Record` | src/wzrdbrain/wzrdbrain.py:112-116 | `to_dict` keeps the five fields unchanged and adds the rendered name |
| `Wzrdbrain.Trick.constructor` | src/wzrdbrain/wzrdbrain.py:56-62 | the dataclass initialiser stores the five given fields |
| `Wzrdbrain.Trick.PostInit` | src/wzrdbrain/wzrdbrain.py:64-90 | the step-by-step field updates reach exactly the state `Resolve` gives; on a validation error the error is `Resolve`'s and no field has changed |
| `Wzrdbrain.NewTrick` | src/wzrdbrain/wzrdbrain.py:56-90 | `Trick(...)` fails iff `Resolve` fails, with its error, and otherwise yields a fresh trick in `Resolve`'s state |
| `Wzrdbrain.ComboLength` | src/wzrdbrain/wzrdbrain.py:120-125 | the loop runs max(n, 0) times for a given n and 2..5 times without one |
| `Wzrdbrain.GenerateCombo` | src/wzrdbrain/wzrdbrain.py:120-129 | `ComboLength` names, name i being the rendering of the argument-less trick built from draw i |
| `Wzrdbrain.RandomName` | src/wzrdbrain/wzrdbrain.py:127-128 | one iteration: building `Trick()` and rendering it gives the rendering of `RandomTrick` |
| `Evaluate.Run` | slm/evaluate.py:56 | the leading run of characters with a property: all of them have it and the next does not |
| `Evaluate.RestStart` | slm/evaluate.py:56 | the backtracking point of `\s+` is the longest run, at most `k` long, after which `.` can match, or none when no such point exists |
| `Evaluate.MatchHere` | slm/evaluate.py:56-57 | a match at a line start ends at a line break or the end of the text, and its group is the non-empty, break-free text just before that end |
| `Evaluate.MatchHereShape` | slm/evaluate.py:56-57 | the pattern matches iff the text opens with digits, a dot and whitespace some non-empty prefix of which is followed by a character other than a line break |
| `Evaluate.MatchHereGroup` | slm/evaluate.py:56-57 | on a match the group starts right after the longest non-empty whitespace prefix that is followed by a character other than a line break, with no longer such prefix |
| `Evaluate.Capture` | slm/evaluate.py:56 | `.+$` always matches from a non-break character and captures up to the line's end |
| `Evaluate.FindFrom` | slm/evaluate.py:56-57 | the scan captures at most one group per line it passes |
| `Evaluate.FindFromLines` | slm/evaluate.py:56-57 | every line `findall` captures is non-empty and holds no line break |
| `Evaluate.FindAll` | slm/evaluate.py:56-57 | `re.findall` captures at most one non-empty, break-free group per line of the text |
| `Evaluate.LineTokensWords` | slm/evaluate.py:64-66 | the tokens are words without whitespace or upper-case letters, and there are none iff the line is all whitespace |
| `Evaluate.TrickOfTokens` | slm/evaluate.py:68-83 | direction is set iff the first token is a direction word, mapped through the alias table, with the raw word kept as display direction; stance only in the next slot; the remaining tokens single-spaced are the move, absent iff none remain |
| `Evaluate.ParsedLine` | slm/evaluate.py:64-85 | a captured line contributes at most one trick |
| `Evaluate.ParsedLinesCount` | slm/evaluate.py:62-85 | the line loop yields at most one trick per captured line |
| `Evaluate.ParseCombo` | slm/evaluate.py:44-87 | a parse that succeeds is a non-empty list with at most one trick per captured line, hence per line of the text |
| `Evaluate.ParseComboNone` | slm/evaluate.py:55-87 | the parse is None iff no captured line has a token (in particular when nothing matches) |
| `Evaluate.ReadTrick` | slm/evaluate.py:68-83 | the token-consuming steps of one line build the trick the token specification describes |
| `Evaluate.ParseLine` | slm/evaluate.py:64-85 | one iteration of the line loop adds that line's trick, or nothing for a line without tokens |
| `Evaluate.ParseLines` | slm/evaluate.py:62-85 | the loop collects the lines' tricks in order |
| `Evaluate.ParseComboFromText` | slm/evaluate.py:44-87 | `parse_combo_from_text` returns the parse specified above and never `Some([])` |
| `Evaluate.InvalidMoves` | slm/evaluate.py:90-103 | the reported moves are at most one per trick and none of them is in `MOVES` |
| `Evaluate.InvalidMovesEmpty` | slm/evaluate.py:90-103 | no invalid move is reported iff every trick's move is in `MOVES` |
| `Evaluate.CheckValidMoves` | slm/evaluate.py:90-103 | total is the number of tricks, valid plus the number of invalid moves is total, and invalid lists, in order, each move outside `MOVES` with "" for a missing move |
| `Evaluate.OnlyFirstViolations` | slm/evaluate.py:106-119 | the violations among k tricks number at most max(k-1, 0) |
| `Evaluate.CheckOnlyFirstRule` | slm/evaluate.py:106-119 | checks is max(n-1, 0) and correct is checks minus the only-first moves at positions 1 and later |
| `Evaluate.OnlyFirstAllCorrect` | slm/evaluate.py:106-119 | no violation iff no only-first move sits after position 0 |
| `Evaluate.OnlyFirstIgnoresOpening` | slm/evaluate.py:111-113 | position 0 is never inspected: lists that agree from position 1 on get the same count |
| `Evaluate.LinkedPairs` | slm/evaluate.py:122-145 | at most one correct pair per check |
| `Evaluate.CheckDirectionLinking` | slm/evaluate.py:122-145 | checks is max(n-1, 0) and correct counts the pairs whose next direction equals the expected exit (the flip for rotating moves, "back" iff current is "front"; the current direction otherwise) |
| `Evaluate.LinkedPairsAll` | slm/evaluate.py:122-145 | every check passes iff every adjacent pair is linked |
| `Evaluate.CountParseable` | slm/evaluate.py:226-232 | at most one parseable count per output |
| `Evaluate.EvaluateOutputs` | slm/evaluate.py:210-248 | parseable counts the parsing outputs of the zipped pairs and is at most total_prompts; each correct counter is at most its total; valid plus invalid seen equals the valid-moves total |
| `GenerateData.NumberedLineShape` | slm/generate_data.py:58 | the line is the decimal digits of the number, a dot, one space and the name |
| `GenerateData.ComboLines` | slm/generate_data.py:55-60 | one line per trick |
| `GenerateData.FormatComboAsText` | slm/generate_data.py:55-60 | the text is the lines "i. name" (1-based) joined by newlines, with no trailing newline; it is "" iff the combo is empty |
| `GenerateData.FormatComboDetailed` | slm/generate_data.py:63-70 | the loop writes each trick's numbered line, followed by its exit annotation unless it is the last trick |
| `GenerateData.AnnotationShape` | slm/generate_data.py:69 | the annotation is indented by three spaces and shows the exit twice, once after "(exit: " and once before the closing parenthesis |
| `GenerateData.DetailedInterleaves` | slm/generate_data.py:63-70 | the detailed layout has 2n-1 lines: line 2i is plain line i and line 2i+1 annotates trick i's exit |
| `GenerateData.MakeChat` | slm/generate_data.py:73-81 | three messages with roles system, user, assistant carrying the three texts |
| `GenerateData.ValidateComboExample` | slm/generate_data.py:603-615 | true iff there are exactly three messages with roles system, user, assistant in that order; a missing role raises KeyError iff every earlier role matched |
| `GenerateData.MakeChatValid` | slm/generate_data.py:603-615 | every example `make_chat` builds passes the check |
| `GenerateData.SliceBound` | slm/generate_data.py:624-629 | a slice bound clamps to the list and counts a negative bound from the end |
| `GenerateData.SplitData` | slm/generate_data.py:618-631 | test ++ val ++ train is the shuffled list, and test has min(test_count, n) examples for a non-negative test_count |
| `GenerateData.SplitKeepsExamples` | slm/generate_data.py:618-631 | whatever the shuffle, the three sets together hold exactly the original examples with their multiplicities |
| `GenerateData.TierOf` | slm/generate_data.py:496-501 | a found tier is one of the tiers and lists the move |
| `GenerateData.TierOfFirst` | slm/generate_data.py:496-501 | nothing is found iff no tier lists the move, and otherwise the earliest such tier |
| `GenerateData.FindMoveTier` | slm/generate_data.py:496-501 | the early-return search returns the first tier listing the move |
| `GenerateData.TierAt` | slm/generate_data.py:509-513 | a found tier is one of the tiers and is at the level |
| `GenerateData.TierAtFirst` | slm/generate_data.py:509-513 | nothing is found iff no tier is at the level, and otherwise the earliest such tier |
| `GenerateData.NextTier` | slm/generate_data.py:504-513 | a next tier exists only for a move with a tier and is at that tier's level + 1 |
| `GenerateData.FindNextTier` | slm/generate_data.py:504-513 | None for a move in no tier, else the first tier one level up, or None |
| `GenerateData.Opening` | slm/generate_data.py:172 | `Trick(move=m)` has move m and a drawn direction that is also its enter, and it has an exit |
| `GenerateData.OpeningResolved` | slm/generate_data.py:172 | the opening trick is initialised and exits in a direction |
| `GenerateData.OpeningResolves` | slm/generate_data.py:172 | the opening trick is what initialising `Trick(move=m)` yields |
| `GenerateData.Follow` | slm/generate_data.py:180 | the next trick has the chosen move and continues the previous exit, re-drawing the direction when that exit is None; a continued direction leaves no exit unless the move is gazelle or lion |
| `GenerateData.FollowResolved` | slm/generate_data.py:180 | the next trick is initialised and exits, if at all, in a direction |
| `GenerateData.FollowResolves` | slm/generate_data.py:180 | the next trick is what initialising `Trick(direction=prev.exit_from_trick, move=m)` yields |
| `GenerateData.Chain` | slm/generate_data.py:176-181 | k+1 tricks starting with the head |
| `GenerateData.ChainLinks` | slm/generate_data.py:177-181 | each trick after the head follows its predecessor with its own move and draws |
| `GenerateData.ChainInitialised` | slm/generate_data.py:177-181 | over valid moves and draws every trick of the chain is initialised |
| `GenerateData.FirstTrick` | slm/generate_data.py:171-174 | `Trick(move=m)` yields the opening for a valid move and the InvalidMove error otherwise |
| `GenerateData.NextTrick` | slm/generate_data.py:180 | `Trick(direction=prev.exit_from_trick, move=m)` yields `Follow` for a valid move and the InvalidMove error otherwise |
| `GenerateData.Extend` | slm/generate_data.py:176-181 | the continuation loop builds the chain over valid moves and otherwise stops with the ValueError of the first invalid one (all moves before it valid) |
| `GenerateData.Records` | slm/generate_data.py:183 | one `to_dict` record per trick, in order |
| `GenerateData.StartCombo` | slm/generate_data.py:169-183 | 1 + max(n-1, 0) initialised tricks, the first being the requested move's opening and each later one following its predecessor |
| `GenerateData.ContinueStart` | slm/generate_data.py:176-183 | from an opening trick, the loop and the `to_dict` calls yield the records of `StartCombo` |
| `GenerateData.GenerateConstrainedStart` | slm/generate_data.py:169-183 | None when the move is invalid; otherwise the IndexError of the loop's first draw when `SUBSEQUENT_MOVES` is empty and n ≥ 2, and the records of `StartCombo` when it is not |
| `GenerateData.IncludeMoves` | slm/generate_data.py:193-207 | the n-1 moves after the opening: the requested move at the target position, a drawn move elsewhere |
| `GenerateData.IncludeMovesValid` | slm/generate_data.py:193-207 | those moves are valid iff the requested move is, the only one that can be invalid |
| `GenerateData.IncludeCombo` | slm/generate_data.py:193-209 | n initialised tricks opening with the drawn first move; the trick at the target position follows its predecessor with the requested move, and every other later trick follows its predecessor with that position's drawn move |
| `GenerateData.BuildInclude` | slm/generate_data.py:193-209 | the position loop yields the include combo, or InvalidMove for an invalid requested move |
| `GenerateData.GenerateConstrainedInclude` | slm/generate_data.py:186-209 | an only-first move delegates to the start variant, with the same three outcomes; otherwise n < 2 raises from `randint(1, n-1)`, and the position loop raises at the first position that fails (ValueError at the target for an invalid move, IndexError at another position when `SUBSEQUENT_MOVES` is empty), and yields the include combo when none fails; nothing is drawn at the target |
| `GeneratedChecks.GeneratedMovesValid` | slm/evaluate.py:90-103 | the parse of any combo of initialised tricks has no invalid move |
| `GeneratedChecks.StartOnlyFirst` | slm/generate_data.py:177-181 | a start combo breaks the only-first rule nowhere when the subsequent moves are not only-first |
| `GeneratedChecks.IncludeOnlyFirst` | slm/generate_data.py:193-207 | an include combo breaks the only-first rule nowhere when the requested and subsequent moves are not only-first |
| `GeneratedChecks.OpeningShape` | src/wzrdbrain/wzrdbrain.py:74-90 | an opening's exit is its direction, flipped for gazelle and lion |
| `GeneratedChecks.FollowShape` | slm/generate_data.py:180 | a next trick's exit, when present, is its direction, flipped for gazelle and lion |
| `GeneratedChecks.LinkedAfterExit` | slm/evaluate.py:136-143 | a trick with an exit is linked to the trick built after it when the rotating set agrees with gazelle/lion on its move |
| `GeneratedChecks.ContinuedTrickDropsExit` | slm/generate_data.py:180 | a continued non-flipping trick has no exit, so the next trick draws its direction and is linked iff that draw repeats the carried direction |
| `GeneratedChecks.StartComboLinked` | slm/generate_data.py:177-181 | in a start combo every trick that has an exit is linked to the next one, when the rotating set agrees with gazelle/lion on `MOVES` |
| `GeneratedChecks.IncludeComboLinked` | slm/generate_data.py:193-207 | in an include combo every trick that has an exit is linked to the next one, under the same hypothesis |
| `RoundTrip.MoveName` | src/wzrdbrain/wzrdbrain.py:8-30 | every move name is lower-case single-spaced text whose first word is not a stance |
| `RoundTrip.NameTokens` | src/wzrdbrain/wzrdbrain.py:92-110 | an initialised trick's name has no line break or outer whitespace, and strip, lower and split give its display word, stance word and move words |
| `RoundTrip.ReadBack` | slm/evaluate.py:70-83 | a direction word, an optional stance and move words are read back into direction (through the alias), display word, stance and move |
| `RoundTrip.ParsesBack` | slm/evaluate.py:62-85 | the name of an initialised trick parses back to its direction, display direction, stance and move |
| `RoundTrip.MatchNumbered` | slm/evaluate.py:56-57 | at a numbered line "k. name" the pattern matches the whole line and captures the name |
| `RoundTrip.AnnotationLine` | slm/generate_data.py:69 | an annotation line is indented and stays on its line |
| `RoundTrip.FindPlain` | slm/generate_data.py:55-60 | scanning the plain layout captures exactly the names, in order |
| `RoundTrip.DetailedScan` | slm/generate_data.py:63-70 | scanning the detailed layout captures exactly the names: annotation lines are never captured |
| `RoundTrip.NamesParse` | slm/evaluate.py:62-87 | the records' names fit on one line and parse to their tricks |
| `Properties.PlainRoundTrip` | slm/evaluate.py:44-87 | the plain layout of a non-empty combo of initialised tricks parses back to each trick's direction, display direction, stance and move |
| `Properties.DetailedRoundTrip` | slm/generate_data.py:63-70 | the detailed layout parses back to the same tricks as the plain one |

## Left out

- `run_inference`, `print_results`, `main` and `generate_test_prompts` in slm/evaluate.py: model loading, argument parsing, printing and JSON output.
- The float rates of `evaluate_outputs` (slm/evaluate.py:250-271): floating point. Only the integer counters are modelled; `Evaluate.EvaluateOutputs` returns them instead of the rates.
- The module-level YAML and JSON loading of both scripts: file I/O. The system prompt is a parameter of `MakeChat`, and the tiers are a parameter of the tier lookups.
- The natural-language example categories A, C, D and E of slm/generate_data.py, `generate_constrained_combos`, `save_jsonl` and `main`: prose assembly over loaded files, the `random.random() < 0.6` float branch, and file output.
- `random.shuffle` in `split_data`: the shuffled list is an input, and `SplitKeepsExamples` takes it as any permutation of the examples.
- `GenerateData.SplitData`: `val_count = int(len(remaining) * val_ratio)` is a float product, so `val_count` is an input.
- `Text.Lower` and `Text.IsDigit`: `str.lower()` and `\d` are modelled on ASCII only. Other Unicode letters and digits are treated as unchanged and as non-digits.
- `MOVES` is a set in the model, so its tuple order is lost. That order only feeds `random.choice`, whose answer is an input here.
- `only_first`, `rotating_moves` and `SUBSEQUENT_MOVES` are not defined by the engine module, so they are parameters. `GenerateData.GenerateConstrainedStart` and `GenerateData.GenerateConstrainedInclude` require `SUBSEQUENT_MOVES` to lie inside `MOVES`. An empty set is modelled. A subsequent move outside `MOVES` would make a later `Trick` raise an uncaught ValueError, and that path is not modelled.
- `GenerateData.ValidateComboExample`: only a missing `role` key is modelled as an error. Messages that are not dictionaries and a `messages` value that is not a list are not modelled.
- The tricks are typed records rather than dictionaries. Dictionaries with extra or mistyped keys, and a combo record without `name` (a KeyError in `format_combo_as_text`), are not modelled.
- slm/push_to_hub.py, slm/space/app.py and both translate2js.py files: network, model inference, UI and calls to a remote language model. src/wzrdbrain/__init__.py only re-exports names.
