/** The training-data side: laying a combo out as numbered text, the chat
    record and its shape check, the train/validation/test split, the tier
    lookups of the learning progression, and the combos built around a
    requested move. */
module GenerateData {
  import opened Wrappers
  import opened Text
  import opened Wzrdbrain

  // ---------------------------------------------------------------------
  // format_combo_as_text / format_combo_detailed
  // ---------------------------------------------------------------------

  /** The line `f"{k}. {name}"`. */
  function NumberedLine(k: nat, name: string): string {
    Decimal(k) + ". " + name
  }

  /** The lines of the plain layout: the i-th trick as line i, counted from 1. */
  function ComboLines(combo: seq<TrickRecord>): (lines: seq<string>)
    ensures |lines| == |combo|
  {
    seq(|combo|, i requires 0 <= i < |combo| => NumberedLine(i + 1, combo[i].name))
  }

  method FormatComboAsText(combo: seq<TrickRecord>) returns (text: string)
    ensures text == JoinWith(ComboLines(combo), "\n")
    ensures text == "" <==> combo == []
  {
    var lines: seq<string> := [];
    for i := 0 to |combo|
      invariant lines == ComboLines(combo[..i])
    {
      lines := lines + [NumberedLine(i + 1, combo[i].name)];
    }
    assert combo[..|combo|] == combo;
    text := JoinWith(lines, "\n");
    if combo != [] {
      JoinNonEmpty(lines, "\n");
    }
  }

  /** A join of a non-empty first part is non-empty. */
  lemma JoinNonEmpty(parts: seq<string>, sep: string)
    requires parts != [] && parts[0] != []
    ensures JoinWith(parts, sep) != []
  {
  }

  /** Python's `str()` of an optional direction: the value, or "None". */
  function Shown(v: Option<string>): string {
    if v.Some? then v.value else "None"
  }

  /** The annotation written under a trick that has a successor; it shows
      the trick's exit twice. */
  function Annotation(exit: Option<string>): string {
    "   (exit: " + Shown(exit) + " → next entry: " + Shown(exit) + ")"
  }

  /** A numbered line is the digits of the number, a dot, one space and
      the name. */
  lemma NumberedLineShape(k: nat, name: string)
    ensures var line, d := NumberedLine(k, name), |Decimal(k)|;
            && 1 <= d && |line| == d + 2 + |name|
            && (forall i | 0 <= i < d :: IsDigit(line[i]))
            && line[d] == '.' && line[d + 1] == ' '
            && line[d + 2..] == name
  {
  }

  /** An annotation is indented by three spaces and shows the exit twice,
      once as the exit and once as the next trick's entry. */
  lemma AnnotationShape(exit: Option<string>)
    ensures var note, shown := Annotation(exit), Shown(exit);
            && |note| == 26 + 2 * |shown|
            && note[..3] == "   " && note[3] == '('
            && note[10..10 + |shown|] == shown
            && note[|note| - |shown| - 1..] == shown + ")"
  {
    var shown := Shown(exit);
    var front, middle, back := "   (exit: " + shown, " → next entry: ", shown + ")";
    var note := front + middle + back;
    assert Annotation(exit) == note;
    assert |front| == 10 + |shown| && |middle| == 15;
    assert note[..|front|] == front && front[10..] == shown;
    assert note[|front| + |middle|..] == back;
  }

  /** How many lines the detailed layout has once the first `i` of `n`
      tricks are written. */
  function DetailedCount(i: nat, n: nat): nat {
    if i == 0 || n == 0 then 0 else if i < n then 2 * i else 2 * n - 1
  }

  /** The lines written for trick `i`: its numbered line, then the
      annotation unless it is the last trick. */
  function Block(combo: seq<TrickRecord>, i: nat): seq<string>
    requires i < |combo|
  {
    [NumberedLine(i + 1, combo[i].name)] + (if i + 1 < |combo| then [Annotation(combo[i].exitFromTrick)] else [])
  }

  /** The blocks of the first `k` tricks. */
  function DetailedLines(combo: seq<TrickRecord>, k: nat): seq<string>
    requires k <= |combo|
  {
    if k == 0 then [] else DetailedLines(combo, k - 1) + Block(combo, k - 1)
  }

  method FormatComboDetailed(combo: seq<TrickRecord>) returns (text: string)
    ensures text == JoinWith(DetailedLines(combo, |combo|), "\n")
  {
    var lines: seq<string> := [];
    for i := 0 to |combo|
      invariant lines == DetailedLines(combo, i)
    {
      lines := lines + [NumberedLine(i + 1, combo[i].name)];
      if i + 1 < |combo| {
        lines := lines + [Annotation(combo[i].exitFromTrick)];
      }
    }
    text := JoinWith(lines, "\n");
  }

  /** The detailed layout is the plain layout with one annotation line
      inserted after every trick but the last: line `2i` is plain line `i`
      and line `2i + 1` annotates trick `i`. */
  lemma {:induction false} DetailedInterleaves(combo: seq<TrickRecord>, k: nat)
    requires k <= |combo|
    ensures |DetailedLines(combo, k)| == DetailedCount(k, |combo|)
    ensures forall i | 0 <= i < k :: DetailedLines(combo, k)[2 * i] == ComboLines(combo)[i]
    ensures forall i | 0 <= i < k && i + 1 < |combo| ::
              DetailedLines(combo, k)[2 * i + 1] == Annotation(combo[i].exitFromTrick)
  {
    if k > 0 {
      DetailedInterleaves(combo, k - 1);
      var prefix := DetailedLines(combo, k - 1);
      assert |prefix| == 2 * (k - 1);
      assert DetailedLines(combo, k) == prefix + Block(combo, k - 1);
      forall i | 0 <= i < k
        ensures DetailedLines(combo, k)[2 * i] == ComboLines(combo)[i]
      {
        if i < k - 1 {
          assert DetailedLines(combo, k)[2 * i] == prefix[2 * i];
        }
      }
      forall i | 0 <= i < k && i + 1 < |combo|
        ensures DetailedLines(combo, k)[2 * i + 1] == Annotation(combo[i].exitFromTrick)
      {
        if i < k - 1 {
          assert DetailedLines(combo, k)[2 * i + 1] == prefix[2 * i + 1];
        }
      }
    }
  }

  // ---------------------------------------------------------------------
  // make_chat / validate_combo_example
  // ---------------------------------------------------------------------

  /** A chat message; `role` is `None` when the key is missing. */
  datatype Message = Message(role: Option<string>, content: string)

  /** A training example; `messages` is `None` when the key is missing. */
  datatype Example = Example(messages: Option<seq<Message>>)

  /** The `KeyError` raised by indexing a message without a role. */
  datatype KeyError = KeyError(key: string)

  const ROLES: seq<string> := ["system", "user", "assistant"]

  function MakeChat(systemPrompt: string, userMsg: string, assistantMsg: string): (e: Example)
    ensures e.messages.Some? && |e.messages.value| == |ROLES|
    ensures forall k | 0 <= k < |ROLES| :: e.messages.value[k].role == Some(ROLES[k])
    ensures e.messages.value[0].content == systemPrompt
    ensures e.messages.value[1].content == userMsg
    ensures e.messages.value[2].content == assistantMsg
  {
    Example(Some([
      Message(Some("system"), systemPrompt),
      Message(Some("user"), userMsg),
      Message(Some("assistant"), assistantMsg)]))
  }

  /** `example.get("messages", [])` */
  function MessagesOf(e: Example): seq<Message> {
    e.messages.GetOr([])
  }

  function ValidateComboExample(e: Example): (r: Result<bool, KeyError>)
    // true exactly for three messages with roles system, user, assistant
    ensures r == Success(true) <==>
              |MessagesOf(e)| == 3 && forall k | 0 <= k < 3 :: MessagesOf(e)[k].role == Some(ROLES[k])
    // a missing role raises only when every role before it was as expected
    ensures r.Failure? <==>
              |MessagesOf(e)| == 3 &&
              exists k | 0 <= k < 3 ::
                MessagesOf(e)[k].role.None? &&
                forall j | 0 <= j < k :: MessagesOf(e)[j].role == Some(ROLES[j])
    ensures r.Failure? ==> r.error == KeyError("role")
  {
    var messages := MessagesOf(e);
    if |messages| != 3 then Success(false)
    else if messages[0].role.None? then Failure(KeyError("role"))
    else if messages[0].role.value != "system" then Success(false)
    else if messages[1].role.None? then Failure(KeyError("role"))
    else if messages[1].role.value != "user" then Success(false)
    else if messages[2].role.None? then Failure(KeyError("role"))
    else if messages[2].role.value != "assistant" then Success(false)
    else Success(true)
  }

  /** Every example `make_chat` builds passes the check. */
  lemma MakeChatValid(systemPrompt: string, userMsg: string, assistantMsg: string)
    ensures ValidateComboExample(MakeChat(systemPrompt, userMsg, assistantMsg)) == Success(true)
  {
    var e := MakeChat(systemPrompt, userMsg, assistantMsg);
    assert forall k | 0 <= k < 3 :: MessagesOf(e)[k].role == Some(ROLES[k]);
  }

  // ---------------------------------------------------------------------
  // split_data
  // ---------------------------------------------------------------------

  /** A slice bound `xs[:i]` on a list of length `len`: negative bounds
      count from the end, and both ends are clamped. */
  function SliceBound(i: int, len: nat): (k: nat)
    ensures k <= len
    ensures 0 <= i ==> k == (if i < len then i else len)
    ensures i < 0 ==> k == (if len + i < 0 then 0 else len + i)
  {
    if i < 0 then (if len + i < 0 then 0 else len + i)
    else if i < len then i else len
  }

  datatype Splits<T> = Splits(train: seq<T>, val: seq<T>, test: seq<T>)

  /** `split_data` on the already shuffled examples: the test set is the
      head of `test_count` examples, the validation set the next
      `val_count`, and the rest is the training set. */
  function SplitData<T>(shuffled: seq<T>, testCount: int, valCount: int): (s: Splits<T>)
    ensures s.test + s.val + s.train == shuffled
    ensures |s.test| == SliceBound(testCount, |shuffled|)
    ensures |s.val| == SliceBound(valCount, |shuffled| - |s.test|)
  {
    var test := shuffled[..SliceBound(testCount, |shuffled|)];
    var remaining := shuffled[SliceBound(testCount, |shuffled|)..];
    var val := remaining[..SliceBound(valCount, |remaining|)];
    var train := remaining[SliceBound(valCount, |remaining|)..];
    assert test + val + train == test + remaining;
    Splits(train, val, test)
  }

  /** Whatever permutation the shuffle picks, the three sets together hold
      exactly the original examples, each as often as before. */
  lemma SplitKeepsExamples<T>(examples: seq<T>, shuffled: seq<T>, testCount: int, valCount: int)
    requires multiset(shuffled) == multiset(examples)
    ensures var s := SplitData(shuffled, testCount, valCount);
            multiset(s.test) + multiset(s.val) + multiset(s.train) == multiset(examples)
  {
    var s := SplitData(shuffled, testCount, valCount);
    calc {
      multiset(s.test) + multiset(s.val) + multiset(s.train);
      multiset(s.test + s.val + s.train);
      multiset(shuffled);
    }
  }

  // ---------------------------------------------------------------------
  // find_move_tier / find_next_tier
  // ---------------------------------------------------------------------

  /** One tier of the learning progression. */
  datatype Tier = Tier(level: int, name: string, moves: seq<string>)

  /** The first tier listing `move`. */
  function TierOf(tiers: seq<Tier>, move: string): (r: Option<Tier>)
    ensures r.Some? ==> r.value in tiers && move in r.value.moves
  {
    if tiers == [] then None
    else if move in tiers[0].moves then Some(tiers[0])
    else TierOf(tiers[1..], move)
  }

  /** `TierOf` finds nothing exactly when no tier lists the move, and
      otherwise the earliest tier that does. */
  lemma {:induction false} TierOfFirst(tiers: seq<Tier>, move: string)
    ensures TierOf(tiers, move).None? <==> forall j | 0 <= j < |tiers| :: move !in tiers[j].moves
    ensures TierOf(tiers, move).Some? ==>
              exists j | 0 <= j < |tiers| ::
                tiers[j] == TierOf(tiers, move).value && forall k | 0 <= k < j :: move !in tiers[k].moves
    decreases |tiers|
  {
    if tiers != [] {
      if move in tiers[0].moves {
        assert tiers[0] == TierOf(tiers, move).value;
      } else {
        var rest := tiers[1..];
        TierOfFirst(rest, move);
        assert forall j | 1 <= j < |tiers| :: tiers[j] == rest[j - 1];
        if TierOf(rest, move).Some? {
          var j :| 0 <= j < |rest| && rest[j] == TierOf(rest, move).value &&
                   forall k | 0 <= k < j :: move !in rest[k].moves;
          assert tiers[j + 1] == TierOf(tiers, move).value;
          assert forall k | 0 <= k < j + 1 :: move !in tiers[k].moves;
        }
      }
    }
  }

  /** The first tier at `level`. */
  function TierAt(tiers: seq<Tier>, level: int): (r: Option<Tier>)
    ensures r.Some? ==> r.value in tiers && r.value.level == level
  {
    if tiers == [] then None
    else if tiers[0].level == level then Some(tiers[0])
    else TierAt(tiers[1..], level)
  }

  /** `TierAt` finds nothing exactly when no tier is at the level, and
      otherwise the earliest tier that is. */
  lemma {:induction false} TierAtFirst(tiers: seq<Tier>, level: int)
    ensures TierAt(tiers, level).None? <==> forall j | 0 <= j < |tiers| :: tiers[j].level != level
    ensures TierAt(tiers, level).Some? ==>
              exists j | 0 <= j < |tiers| ::
                tiers[j] == TierAt(tiers, level).value && forall k | 0 <= k < j :: tiers[k].level != level
    decreases |tiers|
  {
    if tiers != [] {
      if tiers[0].level == level {
        assert tiers[0] == TierAt(tiers, level).value;
      } else {
        var rest := tiers[1..];
        TierAtFirst(rest, level);
        assert forall j | 1 <= j < |tiers| :: tiers[j] == rest[j - 1];
        if TierAt(rest, level).Some? {
          var j :| 0 <= j < |rest| && rest[j] == TierAt(rest, level).value &&
                   forall k | 0 <= k < j :: rest[k].level != level;
          assert tiers[j + 1] == TierAt(tiers, level).value;
          assert forall k | 0 <= k < j + 1 :: tiers[k].level != level;
        }
      }
    }
  }

  /** What `find_next_tier` answers: nothing for a move in no tier, else
      the first tier one level above the move's tier, if any. */
  function NextTier(tiers: seq<Tier>, move: string): (r: Option<Tier>)
    ensures r.Some? ==> r.value in tiers && TierOf(tiers, move).Some?
                        && r.value.level == TierOf(tiers, move).value.level + 1
  {
    match TierOf(tiers, move)
    case None => None
    case Some(current) => TierAt(tiers, current.level + 1)
  }

  method FindMoveTier(tiers: seq<Tier>, move: string) returns (r: Option<Tier>)
    ensures r == TierOf(tiers, move)
  {
    for i := 0 to |tiers|
      invariant TierOf(tiers[i..], move) == TierOf(tiers, move)
    {
      assert tiers[i..][1..] == tiers[i + 1..];
      if move in tiers[i].moves {
        return Some(tiers[i]);
      }
    }
    return None;
  }

  method FindNextTier(tiers: seq<Tier>, move: string) returns (r: Option<Tier>)
    ensures r == NextTier(tiers, move)
  {
    var current := FindMoveTier(tiers, move);
    if current.None? {
      return None;
    }
    var targetLevel := current.value.level + 1;
    for i := 0 to |tiers|
      invariant TierAt(tiers[i..], targetLevel) == TierAt(tiers, targetLevel)
    {
      assert tiers[i..][1..] == tiers[i + 1..];
      if tiers[i].level == targetLevel {
        return Some(tiers[i]);
      }
    }
    return None;
  }

  // ---------------------------------------------------------------------
  // generate_constrained_combo_start / generate_constrained_combo_include
  // ---------------------------------------------------------------------

  /** An exit that is present is a direction. */
  predicate ExitOk(f: Fields) {
    f.exitFromTrick.Some? ==> f.exitFromTrick.value in DIRECTIONS
  }

  /** The trick `Trick(direction=prev.exit_from_trick, move=m)` makes from
      draws `d`: the direction continues the previous exit, and is drawn
      afresh when the previous trick has no exit; a continued direction
      leaves enter and exit unset, except for the exit flip of gazelle and
      lion. */
  function Follow(prev: Fields, m: string, d: Draws): (f: Fields)
    ensures f.move == Some(m)
    ensures f.direction == Some(prev.exitFromTrick.GetOr(d.direction))
    ensures prev.exitFromTrick.Some? && m !in FLIPPING_MOVES ==> f.exitFromTrick.None?
  {
    var direction := prev.exitFromTrick.GetOr(d.direction);
    var entered := if prev.exitFromTrick.None? then Some(direction) else None;
    Fields(
      Some(direction),
      if m in EXCLUDE_STANCE then None else Some(d.stance),
      Some(m),
      entered,
      if m in FLIPPING_MOVES then
        if direction == "back" then Some("front")
        else if direction == "front" then Some("back")
        else entered
      else entered)
  }

  /** With a valid move, valid draws and a previous exit that is a
      direction, the trick `Follow` builds is initialised and exits, if at
      all, in a direction. */
  lemma FollowResolved(prev: Fields, m: string, d: Draws)
    requires ExitOk(prev) && m in MOVES && ValidDraws(d)
    ensures Resolved(Follow(prev, m, d)) && ExitOk(Follow(prev, m, d))
  {
  }

  /** `Follow` is what initialising that trick does. */
  lemma FollowResolves(prev: Fields, m: string, d: Draws)
    requires ExitOk(prev) && m in MOVES && ValidDraws(d)
    ensures Resolve(Fields(prev.exitFromTrick, None, Some(m), None, None), d) == Success(Follow(prev, m, d))
  {
  }

  /** The first `k` moves are moves. */
  predicate ValidPrefix(moves: seq<string>, k: nat)
    requires k <= |moves|
  {
    forall i | 0 <= i < k :: moves[i] in MOVES
  }

  /** The first `k` moves are moves, except perhaps `moves[t - 1]`, the one
      the include variant replaces by the requested move. */
  predicate ValidExceptAt(moves: seq<string>, k: nat, t: int)
    requires k <= |moves|
  {
    forall i | 0 <= i < k && i + 1 != t :: moves[i] in MOVES
  }

  /** A valid prefix extends by one valid move. */
  lemma ValidPrefixGrows(moves: seq<string>, k: nat)
    requires k < |moves| && ValidPrefix(moves, k) && moves[k] in MOVES
    ensures ValidPrefix(moves, k + 1)
  {
  }

  /** Every trick is initialised and exits, if at all, in a direction. */
  predicate Initialised(c: seq<Fields>) {
    forall i | 0 <= i < |c| :: Resolved(c[i]) && ExitOk(c[i])
  }

  /** The first `k + 1` tricks of a combo that starts with `head`, the
      trick at position `j` built from `moves[j - 1]` and `draws[j]`. */
  function Chain(head: Fields, moves: seq<string>, k: nat, draws: seq<Draws>): (c: seq<Fields>)
    requires k <= |moves| && k < |draws|
    ensures |c| == k + 1 && c[0] == head
  {
    if k == 0 then [head]
    else
      var init := Chain(head, moves, k - 1, draws);
      init + [Follow(init[k - 1], moves[k - 1], draws[k])]
  }

  /** Each trick of a chain after the head follows its predecessor. */
  lemma {:induction false} ChainLinks(head: Fields, moves: seq<string>, k: nat, draws: seq<Draws>)
    requires k <= |moves| && k < |draws|
    ensures var c := Chain(head, moves, k, draws);
            forall i, j | 0 <= i < j < |c| && j == i + 1 :: c[j] == Follow(c[i], moves[i], draws[j])
  {
    if k > 0 {
      ChainLinks(head, moves, k - 1, draws);
      var init := Chain(head, moves, k - 1, draws);
      var c := Chain(head, moves, k, draws);
      assert c == init + [Follow(init[k - 1], moves[k - 1], draws[k])];
      forall i, j | 0 <= i < j < |c| && j == i + 1
        ensures c[j] == Follow(c[i], moves[i], draws[j])
      {
        assert c[i] == init[i];
        if j < k {
          assert c[j] == init[j];
        }
      }
    }
  }

  /** Over valid moves and valid draws from an initialised head, every
      trick of a chain is initialised. */
  lemma {:induction false} ChainInitialised(head: Fields, moves: seq<string>, k: nat, draws: seq<Draws>)
    requires Resolved(head) && ExitOk(head)
    requires k <= |moves| && ValidPrefix(moves, k)
    requires k < |draws| && forall i | 0 <= i < |draws| :: ValidDraws(draws[i])
    ensures Initialised(Chain(head, moves, k, draws))
  {
    if k > 0 {
      ChainInitialised(head, moves, k - 1, draws);
      var init := Chain(head, moves, k - 1, draws);
      FollowResolved(init[k - 1], moves[k - 1], draws[k]);
      InitialisedAppend(init, Follow(init[k - 1], moves[k - 1], draws[k]));
    }
  }

  lemma InitialisedAppend(init: seq<Fields>, f: Fields)
    requires Initialised(init) && Resolved(f) && ExitOk(f)
    ensures Initialised(init + [f])
  {
    var c := init + [f];
    forall i | 0 <= i < |c|
      ensures Resolved(c[i]) && ExitOk(c[i])
    {
      if i < |init| {
        assert c[i] == init[i];
      }
    }
  }

  /** The trick at position `j` after the head follows the one before it. */
  lemma ChainStep(head: Fields, moves: seq<string>, k: nat, draws: seq<Draws>, j: nat)
    requires k <= |moves| && k < |draws|
    requires 1 <= j <= k
    ensures Chain(head, moves, k, draws)[j] == Follow(Chain(head, moves, k, draws)[j - 1], moves[j - 1], draws[j])
  {
    ChainLinks(head, moves, k, draws);
  }

  /** A chain over a valid prefix grows by one valid move into the chain
      over the longer prefix. */
  lemma ChainExtends(head: Fields, moves: seq<string>, j: nat, draws: seq<Draws>)
    requires 0 < j <= |moves| && j < |draws|
    requires ValidPrefix(moves, j - 1) && moves[j - 1] in MOVES
    ensures ValidPrefix(moves, j)
    ensures var init := Chain(head, moves, j - 1, draws);
            Chain(head, moves, j, draws) == init + [Follow(init[j - 1], moves[j - 1], draws[j])]
  {
    ValidPrefixGrows(moves, j - 1);
    ChainGrows(head, moves, j, draws);
  }

  /** One more trick on a chain is the next `Follow`. */
  lemma ChainGrows(head: Fields, moves: seq<string>, j: nat, draws: seq<Draws>)
    requires 0 < j <= |moves| && j < |draws|
    ensures Chain(head, moves, j, draws)
              == Chain(head, moves, j - 1, draws) + [Follow(Chain(head, moves, j - 1, draws)[j - 1], moves[j - 1], draws[j])]
  {
  }

  /** The trick `Trick(move=move)` makes from draws `d`, when `move` is
      valid: direction, enter and exit all drawn, the exit flipped for
      gazelle and lion. */
  function Opening(move: string, d: Draws): (f: Fields)
    ensures f.move == Some(move) && f.direction == Some(d.direction)
    ensures f.enterIntoTrick == Some(d.direction) && f.exitFromTrick.Some?
  {
    Fields(
      Some(d.direction),
      if move in EXCLUDE_STANCE then None else Some(d.stance),
      Some(move),
      Some(d.direction),
      if move in FLIPPING_MOVES then
        if d.direction == "back" then Some("front")
        else if d.direction == "front" then Some("back")
        else Some(d.direction)
      else Some(d.direction))
  }

  /** With a valid move and valid draws the opening trick is initialised
      and exits in a direction. */
  lemma OpeningResolved(move: string, d: Draws)
    requires move in MOVES && ValidDraws(d)
    ensures Resolved(Opening(move, d)) && ExitOk(Opening(move, d))
  {
  }

  lemma OpeningResolves(move: string, d: Draws)
    requires move in MOVES && ValidDraws(d)
    ensures Resolve(Fields(None, None, Some(move), None, None), d) == Success(Opening(move, d))
  {
  }

  /** `e` reports the first move among `moves[..k]` that is not in `MOVES`. */
  predicate FirstInvalidError(moves: seq<string>, k: nat, e: ValueError)
    requires k <= |moves|
  {
    exists i | 0 <= i < k :: ValidPrefix(moves, i) && moves[i] !in MOVES && e == InvalidMove(moves[i])
  }

  lemma FirstInvalid(moves: seq<string>, i: nat, k: nat, e: ValueError)
    requires i < k <= |moves| && ValidPrefix(moves, i) && moves[i] !in MOVES && e == InvalidMove(moves[i])
    ensures !ValidPrefix(moves, k)
    ensures FirstInvalidError(moves, k, e)
  {
  }

  /** The loop both constrained generators share: after `first`, build
      `Trick(direction=prev.exit_from_trick, move=moves[j])` for
      `j` = 0 .. k - 1, stopping at the first move a `Trick` rejects. */
  method Extend(first: Trick, moves: seq<string>, k: nat, draws: seq<Draws>)
    returns (r: Result<seq<Fields>, ValueError>)
    requires Resolved(first.Snapshot()) && ExitOk(first.Snapshot())
    requires k <= |moves| && k < |draws| && forall i | 0 <= i < |draws| :: ValidDraws(draws[i])
    ensures ValidPrefix(moves, k) ==> r == Success(Chain(first.Snapshot(), moves, k, draws))
    ensures !ValidPrefix(moves, k) ==> r.Failure? && FirstInvalidError(moves, k, r.error)
  {
    ghost var head := first.Snapshot();
    var prev := first;
    var tricks := [first.Snapshot()];
    for j := 0 to k
      invariant ValidPrefix(moves, j)
      invariant tricks == Chain(head, moves, j, draws)
      invariant prev.Snapshot() == tricks[j] && first.Snapshot() == head
    {
      ChainInitialised(head, moves, j, draws);
      var t := NextTrick(prev, moves[j], draws[j + 1]);
      if t.Failure? {
        FirstInvalid(moves, j, k, t.error);
        return Failure(t.error);
      }
      ChainExtends(head, moves, j + 1, draws);
      prev := t.value;
      tricks := tricks + [prev.Snapshot()];
    }
    return Success(tricks);
  }

  /** `Trick(move=move)`: the first trick of a constrained combo, or the
      `ValueError` for a move outside `MOVES`. */
  method FirstTrick(move: string, d: Draws) returns (r: Result<Trick, ValueError>)
    requires ValidDraws(d)
    ensures move in MOVES ==> r.Success? && fresh(r.value) && r.value.Snapshot() == Opening(move, d)
    ensures move !in MOVES ==> r == Failure(InvalidMove(move))
  {
    if move in MOVES {
      OpeningResolves(move, d);
    }
    r := NewTrick(None, None, Some(move), None, None, d);
  }

  /** `Trick(direction=prev.exit_from_trick, move=m)`: the next trick of a
      constrained combo, or the `ValueError` for a move outside `MOVES`. */
  method NextTrick(prev: Trick, m: string, d: Draws) returns (r: Result<Trick, ValueError>)
    requires ExitOk(prev.Snapshot()) && ValidDraws(d)
    ensures m in MOVES ==> r.Success? && fresh(r.value) && r.value.Snapshot() == Follow(prev.Snapshot(), m, d)
    ensures m !in MOVES ==> r == Failure(InvalidMove(m))
  {
    if m in MOVES {
      FollowResolves(prev.Snapshot(), m, d);
    }
    r := NewTrick(prev.exitFromTrick, None, Some(m), None, None, d);
  }

  /** How many tricks the constrained generators make for a requested `n`. */
  function ComboSize(n: int): nat {
    if n <= 1 then 1 else n
  }

  function Records(fs: seq<Fields>): (rs: seq<TrickRecord>)
    ensures |rs| == |fs|
    ensures forall i | 0 <= i < |fs| :: rs[i] == Record(fs[i])
  {
    seq(|fs|, i requires 0 <= i < |fs| => Record(fs[i]))
  }

  /** The move draws and trick draws the start variant consumes: one
      subsequent move per trick after the opening, picked from `subsequent`
      unless that set is empty (then `random.choice` raises instead). */
  predicate EnoughDraws(n: int, subsequent: set<string>, nextMoves: seq<string>, draws: seq<Draws>) {
    && |nextMoves| >= ComboSize(n) - 1
    && (subsequent != {} ==> forall i | 0 <= i < ComboSize(n) - 1 :: nextMoves[i] in subsequent)
    && |draws| >= ComboSize(n)
    && (forall i | 0 <= i < |draws| :: ValidDraws(draws[i]))
  }

  /** The draws the include variant consumes for `n` tricks: a subsequent
      move at every position after the opening except `target`, where the
      requested move is used and nothing is drawn. */
  predicate IncludeDraws(n: int, target: int, subsequent: set<string>, nextMoves: seq<string>, draws: seq<Draws>) {
    && |nextMoves| >= n - 1
    && (subsequent != {} ==> forall i | 0 <= i < n - 1 && i + 1 != target :: nextMoves[i] in subsequent)
    && |draws| >= n
    && (forall i | 0 <= i < |draws| :: ValidDraws(draws[i]))
  }

  predicate SubsetOfMoves(s: set<string>) {
    forall m | m in s :: m in MOVES
  }

  /** A chain that starts with an opening over valid moves and draws is
      initialised throughout. */
  lemma OpeningChainInitialised(firstMove: string, moves: seq<string>, k: nat, draws: seq<Draws>)
    requires firstMove in MOVES && k <= |moves| && ValidPrefix(moves, k)
    requires k < |draws| && forall i | 0 <= i < |draws| :: ValidDraws(draws[i])
    ensures Initialised(Chain(Opening(firstMove, draws[0]), moves, k, draws))
  {
    OpeningResolved(firstMove, draws[0]);
    ChainInitialised(Opening(firstMove, draws[0]), moves, k, draws);
  }

  /** Moves drawn from a subset of `MOVES` are moves. */
  lemma DrawnMovesValid(n: int, subsequent: set<string>, nextMoves: seq<string>, draws: seq<Draws>)
    requires SubsetOfMoves(subsequent) && EnoughDraws(n, subsequent, nextMoves, draws)
    requires subsequent != {} || n < 2
    ensures ComboSize(n) - 1 <= |nextMoves| && ValidPrefix(nextMoves, ComboSize(n) - 1)
  {
  }

  /** The same for the include variant, whose target position draws
      nothing. */
  lemma IncludeDrawnValid(n: int, target: int, subsequent: set<string>, nextMoves: seq<string>, draws: seq<Draws>)
    requires SubsetOfMoves(subsequent) && IncludeDraws(n, target, subsequent, nextMoves, draws)
    requires 2 <= n && 1 <= target <= n - 1 && (subsequent != {} || n == 2)
    ensures n - 1 <= |nextMoves| && ValidExceptAt(nextMoves, n - 1, target)
  {
  }

  /** The combo `generate_constrained_combo_start(move, n)` builds. */
  function StartCombo(move: string, n: int, nextMoves: seq<string>, draws: seq<Draws>): (c: seq<Fields>)
    requires move in MOVES
    requires |nextMoves| >= ComboSize(n) - 1 && ValidPrefix(nextMoves, ComboSize(n) - 1)
    requires |draws| >= ComboSize(n) && (forall i | 0 <= i < |draws| :: ValidDraws(draws[i]))
    ensures |c| == ComboSize(n) && c[0] == Opening(move, draws[0])
    ensures Initialised(c)
    ensures forall i, j | 0 <= i < j < |c| && j == i + 1 :: c[j] == Follow(c[i], nextMoves[i], draws[j])
  {
    var head, k := Opening(move, draws[0]), ComboSize(n) - 1;
    OpeningChainInitialised(move, nextMoves, k, draws);
    ChainLinks(head, nextMoves, k, draws);
    Chain(head, nextMoves, k, draws)
  }

  /** A start combo is the chain from its opening. */
  lemma StartIsChain(move: string, n: int, nextMoves: seq<string>, draws: seq<Draws>)
    requires move in MOVES
    requires |nextMoves| >= ComboSize(n) - 1 && ValidPrefix(nextMoves, ComboSize(n) - 1)
    requires |draws| >= ComboSize(n) && (forall i | 0 <= i < |draws| :: ValidDraws(draws[i]))
    ensures StartCombo(move, n, nextMoves, draws) == Chain(Opening(move, draws[0]), nextMoves, ComboSize(n) - 1, draws)
  {
  }

  method GenerateConstrainedStart(move: string, n: int, subsequent: set<string>,
                                  nextMoves: seq<string>, draws: seq<Draws>)
    returns (r: Result<Option<seq<TrickRecord>>, GenerateError>)
    requires SubsetOfMoves(subsequent)
    requires EnoughDraws(n, subsequent, nextMoves, draws)
    // a rejected move is caught and gives None
    ensures move !in MOVES ==> r == Success(None)
    // the loop's first draw from an empty set raises IndexError
    ensures move in MOVES && subsequent == {} && 2 <= n ==> r == Failure(EmptyChoice)
    ensures move in MOVES && (subsequent != {} || n < 2) ==>
              r == Success(Some(Records(StartCombo(move, n, nextMoves, draws))))
  {
    var first := FirstTrick(move, draws[0]);
    if first.Failure? {
      return Success(None);
    }
    if subsequent == {} && 2 <= n {
      return Failure(EmptyChoice);
    }
    var records := ContinueStart(first.value, move, n, subsequent, nextMoves, draws);
    return Success(Some(records));
  }

  /** The loop of the start variant once its first trick is built. */
  method ContinueStart(first: Trick, move: string, n: int, subsequent: set<string>,
                       nextMoves: seq<string>, draws: seq<Draws>)
    returns (records: seq<TrickRecord>)
    requires SubsetOfMoves(subsequent) && EnoughDraws(n, subsequent, nextMoves, draws)
    requires subsequent != {} || n < 2
    requires move in MOVES && first.Snapshot() == Opening(move, draws[0])
    ensures records == Records(StartCombo(move, n, nextMoves, draws))
  {
    var k := ComboSize(n) - 1;
    DrawnMovesValid(n, subsequent, nextMoves, draws);
    OpeningResolved(move, draws[0]);
    var tricks := Extend(first, nextMoves, k, draws);
    assert tricks == Success(Chain(Opening(move, draws[0]), nextMoves, k, draws));
    StartIsChain(move, n, nextMoves, draws);
    records := Records(tricks.value);
  }

  /** Why the constrained generators can raise: a `Trick` rejecting the
      requested move, `random.randint(1, n - 1)` on an empty range, or
      `random.choice` on an empty `SUBSEQUENT_MOVES` (an IndexError). */
  datatype GenerateError = TrickError(error: ValueError) | EmptyRange(low: int, high: int) | EmptyChoice

  /** The moves after the opening in an include combo of `n` tricks: the
      requested move at `target`, a drawn subsequent move elsewhere. */
  function IncludeMoves(move: string, target: int, n: int, nextMoves: seq<string>): (ms: seq<string>)
    requires |nextMoves| >= n - 1
    ensures |ms| == if n <= 1 then 0 else n - 1
    ensures forall i | 0 <= i < |ms| :: ms[i] == if i + 1 == target then move else nextMoves[i]
  {
    if n <= 1 then []
    else seq(n - 1, i requires 0 <= i < n - 1 => if i + 1 == target then move else nextMoves[i])
  }

  /** The include moves are all valid exactly when the requested move is,
      which is then the only one that can be invalid. */
  lemma IncludeMovesValid(move: string, target: int, n: int, nextMoves: seq<string>)
    requires 2 <= n && 1 <= target <= n - 1
    requires |nextMoves| >= n - 1 && ValidExceptAt(nextMoves, n - 1, target)
    ensures ValidPrefix(IncludeMoves(move, target, n, nextMoves), n - 1) <==> move in MOVES
    ensures forall i | 0 <= i < n - 1 && IncludeMoves(move, target, n, nextMoves)[i] !in MOVES ::
              IncludeMoves(move, target, n, nextMoves)[i] == move
  {
    var ms := IncludeMoves(move, target, n, nextMoves);
    assert ms[target - 1] == move;
  }

  /** The combo the include variant builds when `move` is not only-first
      and valid: the opening of the drawn first move, then a chain over the
      include moves. Every trick is initialised, and each later one
      continues its predecessor's exit with the requested move at the
      target position and the drawn move elsewhere. */
  function IncludeCombo(move: string, n: int, target: int, firstMove: string,
                        nextMoves: seq<string>, draws: seq<Draws>): (c: seq<Fields>)
    requires move in MOVES && firstMove in MOVES && 1 <= target < n
    requires |nextMoves| >= n - 1 && ValidExceptAt(nextMoves, n - 1, target)
    requires |draws| >= n && (forall i | 0 <= i < |draws| :: ValidDraws(draws[i]))
    ensures |c| == n && c[0] == Opening(firstMove, draws[0])
    ensures Initialised(c)
    ensures c[target] == Follow(c[target - 1], move, draws[target])
    ensures forall i, j | 0 <= i < j < |c| && j == i + 1 && j != target ::
              c[j] == Follow(c[i], nextMoves[i], draws[j])
  {
    var head, moves := Opening(firstMove, draws[0]), IncludeMoves(move, target, n, nextMoves);
    OpeningResolved(firstMove, draws[0]);
    assert ValidPrefix(moves, n - 1) && moves[target - 1] == move
           && forall i | 0 <= i < n - 1 && i + 1 != target :: moves[i] == nextMoves[i] by {
      IncludeMovesValid(move, target, n, nextMoves);
    }
    ChainWithMoveAt(head, moves, n - 1, draws, target, move, nextMoves)
  }

  /** A chain whose moves are `nextMoves` except for `move` at position
      `t`: every trick is initialised, trick `t` follows with `move`, and
      every other later trick with its drawn move. */
  function ChainWithMoveAt(head: Fields, moves: seq<string>, k: nat, draws: seq<Draws>,
                           t: int, move: string, nextMoves: seq<string>): (c: seq<Fields>)
    requires Resolved(head) && ExitOk(head)
    requires k <= |moves| && ValidPrefix(moves, k)
    requires k < |draws| && forall i | 0 <= i < |draws| :: ValidDraws(draws[i])
    requires 1 <= t <= k && moves[t - 1] == move
    requires k <= |nextMoves| && forall i | 0 <= i < k && i + 1 != t :: moves[i] == nextMoves[i]
    ensures |c| == k + 1 && c[0] == head && Initialised(c)
    ensures c[t] == Follow(c[t - 1], move, draws[t])
    ensures forall i, j | 0 <= i < j < |c| && j == i + 1 && j != t :: c[j] == Follow(c[i], nextMoves[i], draws[j])
  {
    ChainInitialised(head, moves, k, draws);
    ChainLinks(head, moves, k, draws);
    Chain(head, moves, k, draws)
  }

  method GenerateConstrainedInclude(move: string, n: int, onlyFirst: set<string>, subsequent: set<string>,
                                    target: int, firstMove: string, nextMoves: seq<string>, draws: seq<Draws>)
    returns (r: Result<Option<seq<TrickRecord>>, GenerateError>)
    requires SubsetOfMoves(subsequent) && firstMove in MOVES
    requires move in onlyFirst ==> EnoughDraws(n, subsequent, nextMoves, draws)
    requires move !in onlyFirst && 2 <= n ==>
               1 <= target <= n - 1 && IncludeDraws(n, target, subsequent, nextMoves, draws)
    // an only-first move is handed to the start variant
    ensures move in onlyFirst && move !in MOVES ==> r == Success(None)
    ensures move in onlyFirst && move in MOVES && subsequent == {} && 2 <= n ==> r == Failure(EmptyChoice)
    ensures move in onlyFirst && move in MOVES && (subsequent != {} || n < 2) ==>
              r == Success(Some(Records(StartCombo(move, n, nextMoves, draws))))
    // otherwise the random position needs at least two tricks
    ensures move !in onlyFirst && n < 2 ==> r == Failure(EmptyRange(1, n - 1))
    // the position loop raises at the first position that fails: the target
    // when the requested move is not a move, any other position (1, or 2
    // when the target is 1) when there is nothing to draw from
    ensures move !in onlyFirst && 2 <= n && move !in MOVES && (target == 1 || subsequent != {} || n == 2) ==>
              r == Failure(TrickError(InvalidMove(move)))
    ensures move !in onlyFirst && 3 <= n && subsequent == {} && (target != 1 || move in MOVES) ==>
              r == Failure(EmptyChoice)
    ensures move !in onlyFirst && 2 <= n && move in MOVES && (subsequent != {} || n == 2) ==>
              r == Success(Some(Records(IncludeCombo(move, n, target, firstMove, nextMoves, draws))))
  {
    if move in onlyFirst {
      r := GenerateConstrainedStart(move, n, subsequent, nextMoves, draws);
      return;
    }
    if n < 2 {
      return Failure(EmptyRange(1, n - 1));
    }
    if subsequent == {} && 3 <= n {
      // position 1 fails first: on the requested move when it is the
      // target, on the draw otherwise
      if target == 1 && move !in MOVES {
        return Failure(TrickError(InvalidMove(move)));
      }
      return Failure(EmptyChoice);
    }
    IncludeDrawnValid(n, target, subsequent, nextMoves, draws);
    var built := BuildInclude(move, n, target, firstMove, nextMoves, draws);
    if built.Failure? {
      return Failure(TrickError(built.error));
    }
    return Success(Some(built.value));
  }

  /** The include combo once the move is known not to be only-first and
      `n` is at least 2: the loop over the positions. */
  method BuildInclude(move: string, n: int, target: int, firstMove: string,
                      nextMoves: seq<string>, draws: seq<Draws>)
    returns (r: Result<seq<TrickRecord>, ValueError>)
    requires 2 <= n && 1 <= target <= n - 1 && firstMove in MOVES
    requires |nextMoves| >= n - 1 && ValidExceptAt(nextMoves, n - 1, target)
    requires |draws| >= n && (forall i | 0 <= i < |draws| :: ValidDraws(draws[i]))
    ensures move !in MOVES ==> r == Failure(InvalidMove(move))
    ensures move in MOVES ==> r == Success(Records(IncludeCombo(move, n, target, firstMove, nextMoves, draws)))
  {
    var first := FirstTrick(firstMove, draws[0]);
    var moves := IncludeMoves(move, target, n, nextMoves);
    var tricks := Extend(first.value, moves, n - 1, draws);
    IncludeMovesValid(move, target, n, nextMoves);
    if tricks.Failure? {
      return Failure(tricks.error);
    }
    assert tricks.value == IncludeCombo(move, n, target, firstMove, nextMoves, draws);
    return Success(Records(tricks.value));
  }
}
