/** The evaluator's side: reading a numbered combo back out of free text,
    and the counting checks of valid moves, the only-first placement rule
    and direction linking, summed over a batch of model outputs. */
module Evaluate {
  import opened Wrappers
  import opened Text
  import Wzrdbrain

  /** "fakie" and "forward" are display spellings of back and front. */
  const DIRECTION_ALIASES: map<string, string> :=
    map["fakie" := "back", "forward" := "front", "front" := "front", "back" := "back"]
  const VALID_DIRECTIONS: set<string> := {"front", "back", "fakie", "forward"}
  const VALID_STANCES: set<string> := {"open", "closed"}

  /** One parsed line; a `None` field is a key the parser did not set. */
  datatype ParsedTrick = ParsedTrick(
    direction: Option<string>,
    displayDirection: Option<string>,
    stance: Option<string>,
    move: Option<string>)

  // ---------------------------------------------------------------------
  // The pattern ^\d+\.\s+(.+)$ with re.MULTILINE, and re.findall over it
  // ---------------------------------------------------------------------

  /** Length of the leading run of characters satisfying `p`. */
  function Run(s: string, p: char -> bool): (k: nat)
    decreases |s|
    ensures k <= |s|
    ensures forall i | 0 <= i < k :: p(s[i])
    ensures k < |s| ==> !p(s[k])
  {
    if s != [] && p(s[0]) then 1 + Run(s[1..], p) else 0
  }

  predicate NotNewline(c: char) {
    c != '\n'
  }

  /** The longest `\s+` (at most `k` characters of `rest`) after which `.`
      can still match: the first backtracking point of the regex engine. */
  function RestStart(rest: string, k: nat): (j: Option<nat>)
    requires k <= |rest|
    ensures j.Some? ==> 1 <= j.value <= k && j.value < |rest| && rest[j.value] != '\n'
    ensures j.Some? ==> forall i | j.value < i <= k :: i == |rest| || rest[i] == '\n'
    ensures j.None? ==> forall i | 1 <= i <= k :: i == |rest| || rest[i] == '\n'
  {
    if k == 0 then None
    else if k < |rest| && rest[k] != '\n' then Some(k)
    else RestStart(rest, k - 1)
  }

  /** The pattern matched at the start of `s` (the `^` is checked by the
      caller): the length of the match and the captured group. */
  function MatchHere(s: string): (m: Option<(nat, string)>)
    ensures m.Some? ==>
              && 0 < |m.value.1| <= m.value.0 <= |s|
              && m.value.1 == s[m.value.0 - |m.value.1|..m.value.0]
              && (forall i | 0 <= i < |m.value.1| :: m.value.1[i] != '\n')
              && (m.value.0 == |s| || s[m.value.0] == '\n')
  {
    var d := Run(s, IsDigit);
    if d == 0 || d == |s| || s[d] != '.' then None
    else
      var rest := s[d + 1..];
      var w := Run(rest, IsSpace);
      match RestStart(rest, w)
      case None => None
      case Some(k) => Capture(s, d + 1, k)
  }

  /** The pattern matches exactly when `s` opens with digits and a dot,
      followed by whitespace of which some prefix, at least one long, is
      followed by a character other than a line break. */
  lemma MatchHereShape(s: string)
    ensures MatchHere(s).Some? <==>
              var d := Run(s, IsDigit);
              && 1 <= d < |s| && s[d] == '.'
              && var rest := s[d + 1..];
                 exists i | 1 <= i <= Run(rest, IsSpace) :: i < |rest| && rest[i] != '\n'
  {
    var d := Run(s, IsDigit);
    if 1 <= d < |s| && s[d] == '.' {
      var rest := s[d + 1..];
      var w := Run(rest, IsSpace);
      var k := RestStart(rest, w);
      if k.Some? {
        assert MatchHere(s).Some?;
        assert k.value < |rest| && rest[k.value] != '\n';
      } else {
        assert MatchHere(s).None?;
        forall i | 1 <= i <= w ensures !(i < |rest| && rest[i] != '\n') { }
      }
    } else {
      assert MatchHere(s).None?;
    }
  }

  /** `\s+` backtracks from its longest run to the longest prefix that is
      followed by a character other than a line break, and the group starts
      at `g`, right after that prefix. */
  lemma MatchHereGroup(s: string) returns (d: nat, g: nat)
    requires MatchHere(s).Some?
    ensures d == Run(s, IsDigit) && 1 <= d < |s| && s[d] == '.'
    ensures g == MatchHere(s).value.0 - |MatchHere(s).value.1|
    ensures d + 2 <= g <= d + 1 + Run(s[d + 1..], IsSpace) && g < |s| && s[g] != '\n'
    ensures forall i | g < i <= d + 1 + Run(s[d + 1..], IsSpace) :: i == |s| || s[i] == '\n'
  {
    d := Run(s, IsDigit);
    assert 1 <= d < |s| && s[d] == '.';
    var rest := s[d + 1..];
    var w := Run(rest, IsSpace);
    var k := RestStart(rest, w);
    assert k.Some?;
    var m := Capture(s, d + 1, k.value);
    assert MatchHere(s) == m;
    g := d + 1 + k.value;
    forall i | g < i <= d + 1 + w
      ensures i == |s| || s[i] == '\n'
    {
      assert i - (d + 1) == |rest| || rest[i - (d + 1)] == '\n';
    }
  }

  /** The `.+$` part: from `s[start + k]` to the end of its line. */
  function Capture(s: string, start: nat, k: nat): (m: Option<(nat, string)>)
    requires start <= |s| && k < |s| - start && s[start + k] != '\n'
    ensures m.Some?
    ensures && 0 < |m.value.1| && start + k + |m.value.1| == m.value.0 <= |s|
            && m.value.1 == s[m.value.0 - |m.value.1|..m.value.0]
            && (forall i | 0 <= i < |m.value.1| :: m.value.1[i] != '\n')
            && (m.value.0 == |s| || s[m.value.0] == '\n')
  {
    var line := s[start + k..];
    var r := Run(line, NotNewline);
    assert NotNewline(line[0]);
    assert line[..r] == s[start + k..start + k + r];
    Some((start + k + r, line[..r]))
  }

  /** The number of line breaks in `s`. */
  function Breaks(s: string): nat {
    if s == [] then 0 else (if s[0] == '\n' then 1 else 0) + Breaks(s[1..])
  }

  lemma {:induction false} BreaksSuffix(s: string, n: nat)
    requires n <= |s|
    ensures Breaks(s[n..]) <= Breaks(s)
    decreases n
  {
    if n > 0 {
      BreaksSuffix(s[1..], n - 1);
      assert s[1..][n - 1..] == s[n..];
    }
  }

  /** The captured groups of the successive non-overlapping matches, scanning
      `s` from its start; `atLineStart` says whether `^` holds there. A match
      runs to the end of its line, so each line yields at most one group. */
  function FindFrom(s: string, atLineStart: bool): (groups: seq<string>)
    decreases |s|
    ensures |groups| <= Breaks(s) + (if atLineStart then 1 else 0)
  {
    var m := if atLineStart then MatchHere(s) else None;
    if m.Some? then
      var (n, g) := m.value;
      assert s[n - 1] == g[|g| - 1] != '\n';
      BreaksSuffix(s, n);
      [g] + FindFrom(s[n..], s[n - 1] == '\n')
    else if s == [] then []
    else FindFrom(s[1..], s[0] == '\n')
  }

  /** `re.findall(r"^\d+\.\s+(.+)$", text, re.MULTILINE)`: at most one
      group per line of text, each non-empty and within its line. */
  function FindAll(text: string): (lines: seq<string>)
    ensures |lines| <= Breaks(text) + 1
    ensures forall j | 0 <= j < |lines| :: lines[j] != [] && '\n' !in lines[j]
  {
    FindFromLines(text, true);
    FindFrom(text, true)
  }

  /** Every captured line is non-empty and lies within one line of text. */
  lemma {:induction false} FindFromLines(s: string, atLineStart: bool)
    ensures forall j | 0 <= j < |FindFrom(s, atLineStart)| ::
              FindFrom(s, atLineStart)[j] != [] && '\n' !in FindFrom(s, atLineStart)[j]
    decreases |s|
  {
    var m := if atLineStart then MatchHere(s) else None;
    if m.Some? {
      var (n, g) := m.value;
      FindFromLines(s[n..], s[n - 1] == '\n');
      assert '\n' !in g by {
        forall i | 0 <= i < |g| ensures g[i] != '\n' { }
      }
    } else if s != [] {
      FindFromLines(s[1..], s[0] == '\n');
    }
  }

  // ---------------------------------------------------------------------
  // parse_combo_from_text
  // ---------------------------------------------------------------------

  /** The tokens of one captured line: stripped, lower-cased, split. */
  function LineTokens(line: string): seq<string> {
    Split(Lower(Strip(line)))
  }

  /** The tokens are words without upper-case letters, and there are none
      exactly when the line is all whitespace. */
  lemma LineTokensWords(line: string)
    ensures forall j | 0 <= j < |LineTokens(line)| :: IsWord(LineTokens(line)[j]) && NoUpper(LineTokens(line)[j])
    ensures LineTokens(line) == [] <==> forall i | 0 <= i < |line| :: IsSpace(line[i])
  {
    var stripped := Strip(line);
    SplitNoUpper(Lower(stripped));
    SplitEmpty(Lower(stripped));
    StripEmpty(line);
  }

  /** One line's tokens as a trick: an optional leading direction word,
      then an optional stance word, and the rest as the move. The
      direction key is set exactly for a leading direction word, to its
      canonical front/back, with the word itself kept for display; a stance
      is read only in the slot right after that optional word; the
      remaining tokens, single-spaced, are the move, absent when none
      remain. */
  function TrickOfTokens(parts: seq<string>): (t: ParsedTrick)
    ensures t.direction.Some? <==> parts != [] && parts[0] in VALID_DIRECTIONS
    ensures t.displayDirection.Some? <==> t.direction.Some?
    ensures t.direction.Some? ==>
              && t.direction.value in Wzrdbrain.DIRECTIONS
              && t.displayDirection == Some(parts[0])
              && t.direction.value == DIRECTION_ALIASES[parts[0]]
    ensures var rest := if t.direction.Some? then parts[1..] else parts;
            && (t.stance.Some? <==> rest != [] && rest[0] in VALID_STANCES)
            && (t.stance.Some? ==> t.stance.value == rest[0])
            && var moveParts := if t.stance.Some? then rest[1..] else rest;
               t.move == if moveParts == [] then None else Some(JoinWith(moveParts, " "))
  {
    var (direction, display, afterDirection) :=
      if parts != [] && parts[0] in VALID_DIRECTIONS
      then (Some(DIRECTION_ALIASES[parts[0]]), Some(parts[0]), parts[1..])
      else (None, None, parts);
    var (stance, afterStance) :=
      if afterDirection != [] && afterDirection[0] in VALID_STANCES
      then (Some(afterDirection[0]), afterDirection[1..])
      else (None, afterDirection);
    var move := if afterStance != [] then Some(JoinWith(afterStance, " ")) else None;
    ParsedTrick(direction, display, stance, move)
  }

  /** One captured line's contribution: its trick, or nothing when it has
      no tokens. */
  function ParsedLine(line: string): (ts: seq<ParsedTrick>)
    ensures |ts| <= 1
  {
    var parts := LineTokens(line);
    if parts == [] then [] else [TrickOfTokens(parts)]
  }

  /** The concatenation of `f` over `xs`, in order. */
  function FlatMap<X, Y>(xs: seq<X>, f: X -> seq<Y>): seq<Y> {
    if xs == [] then [] else f(xs[0]) + FlatMap(xs[1..], f)
  }

  lemma {:induction false} FlatMapAppend<X, Y>(xs: seq<X>, x: X, f: X -> seq<Y>)
    ensures FlatMap(xs + [x], f) == FlatMap(xs, f) + f(x)
    decreases |xs|
  {
    if xs == [] {
      assert [] + [x] == [x];
    } else {
      assert (xs + [x])[0] == xs[0];
      assert (xs + [x])[1..] == xs[1..] + [x];
      FlatMapAppend(xs[1..], x, f);
    }
  }

  lemma {:induction false} FlatMapEmpty<X, Y>(xs: seq<X>, f: X -> seq<Y>)
    ensures FlatMap(xs, f) == [] <==> forall j | 0 <= j < |xs| :: f(xs[j]) == []
    decreases |xs|
  {
    if xs != [] {
      FlatMapEmpty(xs[1..], f);
      assert forall j | 1 <= j < |xs| :: xs[j] == xs[1..][j - 1];
    }
  }

  lemma FlatMapPrefix<X, Y>(xs: seq<X>, i: nat, f: X -> seq<Y>)
    requires i < |xs|
    ensures FlatMap(xs[..i + 1], f) == FlatMap(xs[..i], f) + f(xs[i])
  {
    assert xs[..i + 1] == xs[..i] + [xs[i]];
    FlatMapAppend(xs[..i], xs[i], f);
  }

  /** The tricks of the captured lines, skipping lines without tokens. */
  function ParsedLines(lines: seq<string>): seq<ParsedTrick> {
    FlatMap(lines, ParsedLine)
  }

  /** Each captured line yields at most one trick. */
  lemma {:induction false} ParsedLinesCount(lines: seq<string>)
    ensures |ParsedLines(lines)| <= |lines|
    decreases |lines|
  {
    if lines != [] {
      ParsedLinesCount(lines[1..]);
    }
  }

  /** What `parse_combo_from_text` returns: a non-empty list of at most one
      trick per numbered line, so no more tricks than the text has lines. */
  function ParseCombo(text: string): (r: Option<seq<ParsedTrick>>)
    ensures r.Some? ==> r.value != [] && |r.value| <= |FindAll(text)| <= Breaks(text) + 1
  {
    var lines := FindAll(text);
    if lines == [] then None
    else
      var tricks := ParsedLines(lines);
      ParsedLinesCount(lines);
      if tricks == [] then None else Some(tricks)
  }

  /** None exactly when no captured line has a token, that is when every
      captured line is whitespace (nothing captured included). */
  lemma ParseComboNone(text: string)
    ensures ParseCombo(text).None? <==>
              forall j | 0 <= j < |FindAll(text)| :: LineTokens(FindAll(text)[j]) == []
  {
    var lines := FindAll(text);
    FlatMapEmpty(lines, ParsedLine);
    assert forall j | 0 <= j < |lines| :: ParsedLine(lines[j]) == [] <==> LineTokens(lines[j]) == [];
  }

  /** The body of the per-line loop of `parse_combo_from_text`: consume
      an optional direction word, then an optional stance word, and join
      what remains into the move. */
  method ReadTrick(tokens: seq<string>) returns (t: ParsedTrick)
    ensures t == TrickOfTokens(tokens)
  {
    var parts := tokens;
    var direction, display, stance, move := None, None, None, None;
    if parts != [] && parts[0] in VALID_DIRECTIONS {
      direction := Some(DIRECTION_ALIASES[parts[0]]);
      display := Some(parts[0]);
      parts := parts[1..];
    }
    if parts != [] && parts[0] in VALID_STANCES {
      stance := Some(parts[0]);
      parts := parts[1..];
    }
    if parts != [] {
      move := Some(JoinWith(parts, " "));
    }
    t := ParsedTrick(direction, display, stance, move);
  }

  /** One iteration of the loop: the line's trick, if it has tokens. */
  method ParseLine(line: string) returns (ts: seq<ParsedTrick>)
    ensures ts == ParsedLine(line)
  {
    var parts := LineTokens(line);
    ts := [];
    if parts != [] {
      var t := ReadTrick(parts);
      ts := [t];
    }
  }

  /** The loop of `parse_combo_from_text` over the captured lines. */
  method ParseLines(lines: seq<string>) returns (tricks: seq<ParsedTrick>)
    ensures tricks == ParsedLines(lines)
  {
    tricks := [];
    for i := 0 to |lines|
      invariant tricks == ParsedLines(lines[..i])
    {
      FlatMapPrefix(lines, i, ParsedLine);
      var parsed := ParseLine(lines[i]);
      tricks := tricks + parsed;
    }
    assert lines[..|lines|] == lines;
  }

  method ParseComboFromText(text: string) returns (r: Option<seq<ParsedTrick>>)
    ensures r == ParseCombo(text)
    ensures r.Some? ==> r.value != []
  {
    var lines := FindAll(text);
    if lines == [] {
      return None;
    }
    var tricks := ParseLines(lines);
    r := if tricks == [] then None else Some(tricks);
  }

  // ---------------------------------------------------------------------
  // check_valid_moves
  // ---------------------------------------------------------------------

  /** `trick.get("move", "")` */
  function MoveOf(t: ParsedTrick): string {
    t.move.GetOr("")
  }

  /** The moves outside `MOVES`, in order, "" standing for a missing move. */
  function InvalidMoves(ts: seq<ParsedTrick>): (bad: seq<string>)
    ensures |bad| <= |ts|
    ensures forall j | 0 <= j < |bad| :: bad[j] !in Wzrdbrain.MOVES
  {
    if ts == [] then []
    else
      var last := MoveOf(ts[|ts| - 1]);
      InvalidMoves(ts[..|ts| - 1]) + (if last in Wzrdbrain.MOVES then [] else [last])
  }

  /** No invalid move is reported exactly when every move is in `MOVES`. */
  lemma {:induction false} InvalidMovesEmpty(ts: seq<ParsedTrick>)
    ensures InvalidMoves(ts) == [] <==> forall j | 0 <= j < |ts| :: MoveOf(ts[j]) in Wzrdbrain.MOVES
    decreases |ts|
  {
    if ts != [] {
      var init := ts[..|ts| - 1];
      InvalidMovesEmpty(init);
      assert forall j | 0 <= j < |init| :: init[j] == ts[j];
    }
  }

  method CheckValidMoves(tricks: seq<ParsedTrick>) returns (valid: nat, total: nat, invalid: seq<string>)
    ensures total == |tricks|
    ensures valid + |invalid| == total
    ensures invalid == InvalidMoves(tricks)
  {
    valid, total, invalid := 0, |tricks|, [];
    for i := 0 to |tricks|
      invariant valid + |invalid| == i
      invariant invalid == InvalidMoves(tricks[..i])
    {
      assert tricks[..i + 1][..i] == tricks[..i];
      var move := MoveOf(tricks[i]);
      if move in Wzrdbrain.MOVES {
        valid := valid + 1;
      } else {
        invalid := invalid + [move];
      }
    }
    assert tricks[..|tricks|] == tricks;
  }

  // ---------------------------------------------------------------------
  // check_only_first_rule
  // ---------------------------------------------------------------------

  /** How many of positions 1 .. k-1 hold an only-first move. */
  function OnlyFirstViolations(ts: seq<ParsedTrick>, onlyFirst: set<string>, k: nat): (v: nat)
    requires k <= |ts|
    ensures v <= if k == 0 then 0 else k - 1
  {
    if k <= 1 then 0
    else OnlyFirstViolations(ts, onlyFirst, k - 1) + (if MoveOf(ts[k - 1]) in onlyFirst then 1 else 0)
  }

  /** A rule check's number of comparisons: one per trick after the first. */
  function Checks(n: nat): nat {
    if n == 0 then 0 else n - 1
  }

  method CheckOnlyFirstRule(tricks: seq<ParsedTrick>, onlyFirst: set<string>) returns (correct: nat, checks: nat)
    ensures checks == Checks(|tricks|)
    ensures correct == checks - OnlyFirstViolations(tricks, onlyFirst, |tricks|)
  {
    var violations := 0;
    checks := 0;
    for i := 0 to |tricks|
      invariant checks == Checks(i)
      invariant violations == OnlyFirstViolations(tricks, onlyFirst, i)
    {
      if i != 0 {
        checks := checks + 1;
        if MoveOf(tricks[i]) in onlyFirst {
          violations := violations + 1;
        }
      }
    }
    correct := checks - violations;
  }

  /** The rule holds everywhere exactly when no only-first move sits after
      position 0. */
  lemma {:induction false} OnlyFirstAllCorrect(ts: seq<ParsedTrick>, onlyFirst: set<string>, k: nat)
    requires k <= |ts|
    ensures OnlyFirstViolations(ts, onlyFirst, k) == 0 <==>
              forall j | 1 <= j < k :: MoveOf(ts[j]) !in onlyFirst
  {
    if k > 1 {
      OnlyFirstAllCorrect(ts, onlyFirst, k - 1);
    }
  }

  /** The first trick is never inspected: tricks that agree from position 1
      on get the same count. */
  lemma {:induction false} OnlyFirstIgnoresOpening(ts: seq<ParsedTrick>, us: seq<ParsedTrick>, onlyFirst: set<string>, k: nat)
    requires 0 < |ts| == |us| && k <= |ts|
    requires ts[1..] == us[1..]
    ensures OnlyFirstViolations(ts, onlyFirst, k) == OnlyFirstViolations(us, onlyFirst, k)
  {
    if k > 1 {
      OnlyFirstIgnoresOpening(ts, us, onlyFirst, k - 1);
      assert ts[k - 1] == ts[1..][k - 2] == us[1..][k - 2] == us[k - 1];
    }
  }

  // ---------------------------------------------------------------------
  // check_direction_linking
  // ---------------------------------------------------------------------

  /** The direction the next trick should have after `t`: the flip of its
      direction for a rotating move ("front" unless it was "front"), its
      own direction otherwise ("" when it has none). */
  function ExpectedExit(t: ParsedTrick, rotating: set<string>): string {
    var direction := t.direction.GetOr("");
    if MoveOf(t) in rotating then (if direction == "front" then "back" else "front")
    else direction
  }

  predicate Linked(current: ParsedTrick, next: ParsedTrick, rotating: set<string>) {
    ExpectedExit(current, rotating) == next.direction.GetOr("")
  }

  /** How many of the pairs (0,1) .. (k-1,k) are linked. */
  function LinkedPairs(ts: seq<ParsedTrick>, rotating: set<string>, k: nat): (c: nat)
    requires k < |ts| || k == 0
    ensures c <= k
  {
    if k == 0 then 0
    else LinkedPairs(ts, rotating, k - 1) + (if Linked(ts[k - 1], ts[k], rotating) then 1 else 0)
  }

  method CheckDirectionLinking(tricks: seq<ParsedTrick>, rotating: set<string>) returns (correct: nat, checks: nat)
    ensures checks == Checks(|tricks|)
    ensures correct == LinkedPairs(tricks, rotating, checks)
  {
    correct, checks := 0, 0;
    for i := 0 to Checks(|tricks|)
      invariant checks == i
      invariant correct == LinkedPairs(tricks, rotating, i)
    {
      checks := checks + 1;
      var current, nextTrick := tricks[i], tricks[i + 1];
      var expectedExit;
      if MoveOf(current) in rotating {
        expectedExit := if current.direction.GetOr("") == "front" then "back" else "front";
      } else {
        expectedExit := current.direction.GetOr("");
      }
      if expectedExit == nextTrick.direction.GetOr("") {
        correct := correct + 1;
      }
    }
  }

  /** Every check passes exactly when every adjacent pair is linked. */
  lemma {:induction false} LinkedPairsAll(ts: seq<ParsedTrick>, rotating: set<string>, k: nat)
    requires k < |ts| || k == 0
    ensures LinkedPairs(ts, rotating, k) == k <==> forall i | 0 <= i < k :: Linked(ts[i], ts[i + 1], rotating)
  {
    if k > 0 {
      LinkedPairsAll(ts, rotating, k - 1);
    }
  }

  // ---------------------------------------------------------------------
  // evaluate_outputs: the integer counters
  // ---------------------------------------------------------------------

  datatype Counters = Counters(
    totalPrompts: nat,
    parseable: nat,
    validMovesCorrect: nat,
    validMovesTotal: nat,
    onlyFirstCorrect: nat,
    onlyFirstTotal: nat,
    directionCorrect: nat,
    directionTotal: nat,
    invalidMovesSeen: seq<string>)

  /** How many of `outputs` parse. */
  function CountParseable(outputs: seq<string>): (n: nat)
    ensures n <= |outputs|
  {
    if outputs == [] then 0
    else CountParseable(outputs[..|outputs| - 1]) + (if ParseCombo(outputs[|outputs| - 1]).Some? then 1 else 0)
  }

  /** The counters over the pairs of `zip(prompts, outputs)`. */
  method EvaluateOutputs(prompts: seq<string>, outputs: seq<string>, onlyFirst: set<string>, rotating: set<string>)
    returns (c: Counters)
    ensures c.totalPrompts == |prompts|
    ensures c.parseable == CountParseable(outputs[..if |prompts| < |outputs| then |prompts| else |outputs|])
    ensures c.parseable <= c.totalPrompts
    ensures c.validMovesCorrect + |c.invalidMovesSeen| == c.validMovesTotal
    ensures c.onlyFirstCorrect <= c.onlyFirstTotal
    ensures c.directionCorrect <= c.directionTotal
    ensures c.parseable <= c.validMovesTotal
    ensures c.onlyFirstTotal == c.directionTotal == c.validMovesTotal - c.parseable
  {
    c := Counters(|prompts|, 0, 0, 0, 0, 0, 0, 0, []);
    var pairs := if |prompts| < |outputs| then |prompts| else |outputs|;
    for i := 0 to pairs
      invariant c.totalPrompts == |prompts|
      invariant c.parseable == CountParseable(outputs[..i])
      invariant c.validMovesCorrect + |c.invalidMovesSeen| == c.validMovesTotal
      invariant c.onlyFirstCorrect <= c.onlyFirstTotal
      invariant c.directionCorrect <= c.directionTotal
      invariant c.parseable <= c.validMovesTotal
      invariant c.onlyFirstTotal == c.directionTotal == c.validMovesTotal - c.parseable
    {
      assert outputs[..i + 1][..i] == outputs[..i];
      var tricks := ParseComboFromText(outputs[i]);
      if tricks.Some? && |tricks.value| != 0 {
        var valid, total, invalid := CheckValidMoves(tricks.value);
        var firstCorrect, firstChecks := CheckOnlyFirstRule(tricks.value, onlyFirst);
        var linkCorrect, linkChecks := CheckDirectionLinking(tricks.value, rotating);
        c := c.(
          parseable := c.parseable + 1,
          validMovesCorrect := c.validMovesCorrect + valid,
          validMovesTotal := c.validMovesTotal + total,
          invalidMovesSeen := c.invalidMovesSeen + invalid,
          onlyFirstCorrect := c.onlyFirstCorrect + firstCorrect,
          onlyFirstTotal := c.onlyFirstTotal + firstChecks,
          directionCorrect := c.directionCorrect + linkCorrect,
          directionTotal := c.directionTotal + linkChecks);
      }
    }
    assert c.totalPrompts >= pairs;
  }
}
