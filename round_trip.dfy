/** The facts that connect the trick engine's names with the evaluator's
    reader: a rendered name is lower-case, single-spaced words that the
    parser maps back to the trick, and scanning either text layout of the
    data generator captures exactly the names, line by line. */
module RoundTrip {
  import opened Wrappers
  import opened Text
  import opened Wzrdbrain
  import opened GenerateData
  import Evaluate

  // ---------------------------------------------------------------------
  // The move names are lower-case words separated by single spaces
  // ---------------------------------------------------------------------

  predicate NameChar(c: char) {
    'a' <= c <= 'z' || '0' <= c <= '9'
  }

  /** From position `i` on, `s` is lower-case words and digits separated by
      single spaces, ending in a word; `afterSpace` says a word must start
      at `i`. */
  predicate CleanFrom(s: string, i: nat, afterSpace: bool)
    requires i <= |s|
    decreases |s| - i
  {
    if i == |s| then !afterSpace
    else if s[i] == ' ' then !afterSpace && CleanFrom(s, i + 1, true)
    else NameChar(s[i]) && CleanFrom(s, i + 1, false)
  }

  lemma {:induction false} CleanFromSound(s: string, i: nat, afterSpace: bool)
    requires i <= |s| && CleanFrom(s, i, afterSpace)
    ensures forall j | i <= j < |s| :: NameChar(s[j]) || s[j] == ' '
    ensures forall j | i <= j < |s| - 1 :: s[j] == ' ' ==> s[j + 1] != ' '
    ensures i < |s| ==> s[|s| - 1] != ' '
    ensures afterSpace ==> i < |s| && s[i] != ' '
    decreases |s| - i
  {
    if i < |s| {
      CleanFromSound(s, i + 1, s[i] == ' ');
    }
  }

  // One lemma per move name: each unfolds `CleanFrom` along the letters of
  // one literal, and a single lemma doing all of them at once exceeds the
  // solver's resource budget.
  lemma CleanPredator() ensures CleanFrom("predator", 0, true) { }
  lemma CleanPredatorOne() ensures CleanFrom("predator one", 0, true) { }
  lemma CleanParallel() ensures CleanFrom("parallel", 0, true) { }
  lemma CleanTree() ensures CleanFrom("tree", 0, true) { }
  lemma CleanGazelle() ensures CleanFrom("gazelle", 0, true) { }
  lemma CleanGazelleS() ensures CleanFrom("gazelle s", 0, true) { }
  lemma CleanLion() ensures CleanFrom("lion", 0, true) { }
  lemma CleanLionS() ensures CleanFrom("lion s", 0, true) { }
  lemma CleanToePress() ensures CleanFrom("toe press", 0, true) { }
  lemma CleanHeelPress() ensures CleanFrom("heel press", 0, true) { }
  lemma CleanToeRoll() ensures CleanFrom("toe roll", 0, true) { }
  lemma CleanHeelRoll() ensures CleanFrom("heel roll", 0, true) { }
  lemma Clean360() ensures CleanFrom("360", 0, true) { }
  lemma Clean180() ensures CleanFrom("180", 0, true) { }
  lemma CleanParallelSlide() ensures CleanFrom("parallel slide", 0, true) { }
  lemma CleanSoulSlide() ensures CleanFrom("soul slide", 0, true) { }
  lemma CleanAcidSlide() ensures CleanFrom("acid slide", 0, true) { }
  lemma CleanMizuSlide() ensures CleanFrom("mizu slide", 0, true) { }
  lemma CleanStarSlide() ensures CleanFrom("star slide", 0, true) { }
  lemma CleanFastSlide() ensures CleanFrom("fast slide", 0, true) { }
  lemma CleanBackSlide() ensures CleanFrom("back slide", 0, true) { }

  lemma CleanFirstMoves(m: string)
    requires m in {"predator", "predator one", "parallel", "tree", "gazelle", "gazelle s", "lion", "lion s", "toe press", "heel press"}
    ensures CleanFrom(m, 0, true)
  {
    CleanPredator();
    CleanPredatorOne();
    CleanParallel();
    CleanTree();
    CleanGazelle();
    CleanGazelleS();
    CleanLion();
    CleanLionS();
    CleanToePress();
    CleanHeelPress();
  }

  lemma CleanLastMoves(m: string)
    requires m in {"toe roll", "heel roll", "360", "180", "parallel slide", "soul slide", "acid slide", "mizu slide", "star slide", "fast slide", "back slide"}
    ensures CleanFrom(m, 0, true)
  {
    CleanToeRoll();
    CleanHeelRoll();
    Clean360();
    Clean180();
    CleanParallelSlide();
    CleanSoulSlide();
    CleanAcidSlide();
    CleanMizuSlide();
    CleanStarSlide();
    CleanFastSlide();
    CleanBackSlide();
  }

  /** `MOVES` is the two groups above. */
  lemma MoveGroups(m: string)
    requires m in MOVES
    ensures m in {"predator", "predator one", "parallel", "tree", "gazelle", "gazelle s", "lion", "lion s", "toe press", "heel press"} || m in {"toe roll", "heel roll", "360", "180", "parallel slide", "soul slide", "acid slide", "mizu slide", "star slide", "fast slide", "back slide"}
  {
  }

  lemma CleanMove(m: string)
    requires m in MOVES
    ensures CleanFrom(m, 0, true)
  {
    MoveGroups(m);
    if m in {"predator", "predator one", "parallel", "tree", "gazelle", "gazelle s", "lion", "lion s", "toe press", "heel press"} {
      CleanFirstMoves(m);
    } else {
      CleanLastMoves(m);
    }
  }

  /** Clean text is single-spaced and lower-case. */
  lemma CleanIsSingleSpaced(s: string)
    requires CleanFrom(s, 0, true)
    ensures SingleSpaced(s) && NoUpper(s)
  {
    CleanFromSound(s, 0, true);
  }

  /** Every move name is single-spaced lower-case text whose first word is
      not a stance ("open"/"closed" start with letters no move starts with). */
  lemma MoveName(m: string)
    requires m in MOVES
    ensures SingleSpaced(m) && NoUpper(m)
    ensures m[0] != 'o' && m[0] != 'c'
  {
    CleanMove(m);
    CleanIsSingleSpaced(m);
    CleanFromSound(m, 0, true);
  }

  // ---------------------------------------------------------------------
  // A rendered name splits back into its parts
  // ---------------------------------------------------------------------

  /** The stance's word, if the trick has a stance. */
  function StanceWords(f: Fields): seq<string> {
    if f.stance.Some? then [f.stance.value] else []
  }

  predicate LowerNoNewline(c: char) {
    !IsUpper(c) && c != '\n'
  }

  /** Joining the move's words in place of the move does not change a
      name, since the move is its words joined by single spaces. */
  lemma JoinedName(head: seq<string>, move: string)
    requires SingleSpaced(move)
    ensures JoinWith(head + [move], " ") == JoinWith(head + Split(move), " ")
  {
    SplitSingleSpaced(move);
    JoinFlatten(head, Split(move), " ");
  }

  /** Lower-case words followed by the words of lower-case single-spaced
      text are all lower-case words. */
  lemma {:induction false} LowerWords(head: seq<string>, move: string)
    requires forall j | 0 <= j < |head| :: IsWord(head[j]) && NoUpper(head[j])
    requires SingleSpaced(move) && NoUpper(move)
    ensures forall j | 0 <= j < |head + Split(move)| ::
              IsWord((head + Split(move))[j]) && NoUpper((head + Split(move))[j])
  {
    SingleSpacedWords(move);
    var moveWords := Split(move);
    var words := head + moveWords;
    forall j | 0 <= j < |words|
      ensures IsWord(words[j]) && NoUpper(words[j])
    {
      if j >= |head| {
        assert words[j] == moveWords[j - |head|];
      } else {
        assert words[j] == head[j];
      }
    }
  }

  /** Lower-case words, then lower-case single-spaced text, joined by
      single spaces, have no line break, do not start or end with
      whitespace, and `strip`, `lower` and `split` give back the words and
      then the text's own words. */
  lemma TokensOfJoined(head: seq<string>, move: string)
    requires head != []
    requires forall j | 0 <= j < |head| :: IsWord(head[j]) && NoUpper(head[j])
    requires SingleSpaced(move) && NoUpper(move)
    ensures var name := JoinWith(head + [move], " ");
            && name != [] && !IsSpace(name[0]) && !IsSpace(name[|name| - 1])
            && (forall i | 0 <= i < |name| :: name[i] != '\n')
            && Evaluate.LineTokens(name) == head + Split(move)
  {
    JoinedName(head, move);
    LowerWords(head, move);
    TokensOfWords(head + Split(move));
  }

  /** Lower-case words joined by single spaces have no line break, do not
      start or end with whitespace, and `strip`, `lower` and `split` give
      the words back. */
  lemma {:induction false} TokensOfWords(words: seq<string>)
    requires words != []
    requires forall j | 0 <= j < |words| :: IsWord(words[j]) && NoUpper(words[j])
    ensures var name := JoinWith(words, " ");
            && name != [] && !IsSpace(name[0]) && !IsSpace(name[|name| - 1])
            && (forall i | 0 <= i < |name| :: name[i] != '\n')
            && Evaluate.LineTokens(name) == words
  {
    var name := JoinWith(words, " ");
    JoinEnds(words, " ");
    JoinKeeps(words, " ", LowerNoNewline);
    StripClean(name);
    assert NoUpper(name);
    LowerOfLower(name);
    SplitJoin(words);
  }

  /** The direction words and the stance words are lower-case words. */
  lemma DirectionWords()
    ensures forall w | w in Evaluate.VALID_DIRECTIONS :: IsWord(w) && NoUpper(w)
  {
  }

  lemma StanceNames()
    ensures forall w | w in STANCES :: IsWord(w) && NoUpper(w)
  {
  }

  /** The display word is a direction word whose alias is the trick's
      direction. */
  lemma DisplayWord(f: Fields)
    requires Resolved(f)
    ensures DisplayDirection(f).Some? && DisplayDirection(f).value in Evaluate.VALID_DIRECTIONS
    ensures Evaluate.DIRECTION_ALIASES[DisplayDirection(f).value] == f.direction.value
  {
    RenderResolved(f);
  }

  /** The words of an initialised trick's name: its display direction, its
      stance if any, and the words of its move. */
  function NameWords(f: Fields): seq<string>
    requires Resolved(f)
  {
    DisplayWord(f);
    [DisplayDirection(f).value] + StanceWords(f) + Split(f.move.value)
  }

  /** An initialised trick's name has no line break and does not start or
      end with whitespace, and the parser's `strip`, `lower` and `split`
      give back its display word, its stance word and its move's words. */
  lemma {:induction false} NameTokens(f: Fields)
    requires Resolved(f)
    ensures Render(f) != [] && !IsSpace(Render(f)[0]) && !IsSpace(Render(f)[|Render(f)| - 1])
    ensures forall i | 0 <= i < |Render(f)| :: Render(f)[i] != '\n'
    ensures Evaluate.LineTokens(Render(f)) == NameWords(f)
  {
    var head := NameParts(f);
    TokensOfJoined(head, f.move.value);
  }

  /** An initialised trick's name joins lower-case words in front of its
      single-spaced lower-case move name. */
  lemma NameParts(f: Fields) returns (head: seq<string>)
    requires Resolved(f)
    ensures DisplayDirection(f).Some? && head == [DisplayDirection(f).value] + StanceWords(f)
    ensures head != [] && forall j | 0 <= j < |head| :: IsWord(head[j]) && NoUpper(head[j])
    ensures SingleSpaced(f.move.value) && NoUpper(f.move.value)
    ensures Render(f) == JoinWith(head + [f.move.value], " ")
    ensures NameWords(f) == head + Split(f.move.value)
  {
    RenderResolved(f);
    DisplayWord(f);
    DirectionWords();
    StanceNames();
    MoveName(f.move.value);
    head := [DisplayDirection(f).value] + StanceWords(f);
  }

  /** What the evaluator should read for a trick: its direction, the word
      its name shows for it, its stance and its move. */
  function Expected(f: Fields): Evaluate.ParsedTrick {
    Evaluate.ParsedTrick(f.direction, DisplayDirection(f), f.stance, f.move)
  }

  /** The parser reads a direction word, an optional stance and a move's
      words back into those three, the direction through its alias. */
  lemma {:induction false} ReadBack(display: string, stance: Option<string>, moveWords: seq<string>)
    requires display in Evaluate.VALID_DIRECTIONS
    requires stance.Some? ==> stance.value in STANCES
    requires moveWords != [] && moveWords[0] != [] && moveWords[0][0] != 'o' && moveWords[0][0] != 'c'
    ensures Evaluate.TrickOfTokens([display] + (if stance.Some? then [stance.value] else []) + moveWords)
              == Evaluate.ParsedTrick(Some(Evaluate.DIRECTION_ALIASES[display]), Some(display), stance,
                                      Some(JoinWith(moveWords, " ")))
  {
    var rest := (if stance.Some? then [stance.value] else []) + moveWords;
    var parts := [display] + rest;
    assert parts[0] == display && parts[1..] == rest;
    if stance.Some? {
      StanceWord(stance.value);
      assert rest[0] == stance.value && rest[1..] == moveWords;
    } else {
      assert rest == moveWords;
      NotStanceWord(moveWords[0]);
    }
  }

  /** The name of an initialised trick parses back to that trick. */
  lemma ParsesBack(f: Fields)
    requires Resolved(f)
    ensures Evaluate.ParsedLine(Render(f)) == [Expected(f)]
  {
    NameTokens(f);
    DisplayWord(f);
    var move := f.move.value;
    MoveName(move);
    SplitSingleSpaced(move);
    ReadBack(DisplayDirection(f).value, f.stance, Split(move));
  }

  lemma StanceWord(w: string)
    requires w in STANCES
    ensures w in Evaluate.VALID_STANCES
  {
  }

  /** A word starting with neither 'o' nor 'c' is not "open" or "closed". */
  lemma NotStanceWord(w: string)
    requires w != [] && w[0] != 'o' && w[0] != 'c'
    ensures w !in Evaluate.VALID_STANCES
  {
  }

  // ---------------------------------------------------------------------
  // re.findall over the numbered layouts
  // ---------------------------------------------------------------------

  /** A leading run of `p` stops where the prefix satisfying `p` stops. */
  lemma {:induction false} RunPrefix(a: string, b: string, p: char -> bool)
    requires forall i | 0 <= i < |a| :: p(a[i])
    requires b == [] || !p(b[0])
    ensures Evaluate.Run(a + b, p) == |a|
    decreases |a|
  {
    if a != [] {
      assert (a + b)[1..] == a[1..] + b;
      RunPrefix(a[1..], b, p);
    }
  }

  /** A name the pattern can capture whole: non-empty, within one line, not
      starting with whitespace. */
  predicate OneLine(name: string) {
    name != [] && !IsSpace(name[0]) && forall i | 0 <= i < |name| :: name[i] != '\n'
  }

  /** The digits of the number run up to the dot, which the space and the
      name follow. */
  lemma NumberedDigits(k: nat, name: string, rest: string)
    ensures var s := NumberedLine(k, name) + rest;
            var d := |Decimal(k)|;
            && Evaluate.Run(s, IsDigit) == d && d < |s| && s[d] == '.'
            && s[d + 1..] == " " + (name + rest)
            && |NumberedLine(k, name)| == d + 2 + |name|
  {
    var digits := Decimal(k);
    var s := NumberedLine(k, name) + rest;
    var tail := ". " + name + rest;
    assert s == digits + tail;
    RunPrefix(digits, tail, IsDigit);
    assert s[|digits|..] == tail;
    assert tail[0] == '.' && tail[1..] == " " + (name + rest);
    assert s[|digits| + 1..] == tail[1..];
  }

  /** After the dot, `\s+` can only take the one space, since the name
      starts with neither whitespace nor a line break. */
  lemma OneSpace(name: string, rest: string)
    requires OneLine(name)
    ensures Evaluate.Run(" " + (name + rest), IsSpace) == 1
    ensures Evaluate.RestStart(" " + (name + rest), 1) == Some(1)
  {
    RunPrefix(" ", name + rest, IsSpace);
    assert (" " + (name + rest))[1] == name[0];
  }

  /** `.+$` takes the name, up to the line break or the end. */
  lemma CaptureName(s: string, start: nat, name: string, rest: string)
    requires OneLine(name)
    requires rest == [] || rest[0] == '\n'
    requires start + 1 <= |s| && s[start + 1..] == name + rest
    ensures Evaluate.Capture(s, start, 1) == Some((start + 1 + |name|, name))
  {
    RunPrefix(name, rest, Evaluate.NotNewline);
    assert (name + rest)[..|name|] == name;
  }

  /** At a numbered line the pattern matches the whole line and captures
      the name. */
  lemma MatchNumbered(k: nat, name: string, rest: string)
    requires OneLine(name)
    requires rest == [] || rest[0] == '\n'
    ensures Evaluate.MatchHere(NumberedLine(k, name) + rest) == Some((|NumberedLine(k, name)|, name))
  {
    var s := NumberedLine(k, name) + rest;
    var d := |Decimal(k)|;
    NumberedDigits(k, name, rest);
    OneSpace(name, rest);
    assert s[d + 2..] == name + rest by {
      assert s[d + 2..] == s[d + 1..][1..];
    }
    CaptureName(s, d + 1, name, rest);
  }

  /** A line break ends the line: the scan after it is at a line start. */
  lemma FindNewline(rest: string)
    ensures Evaluate.FindFrom("\n" + rest, false) == Evaluate.FindFrom(rest, true)
  {
    assert ("\n" + rest)[1..] == rest;
  }

  /** Away from a line start nothing matches until the next line. */
  lemma {:induction false} SkipLine(t: string, rest: string)
    requires forall i | 0 <= i < |t| :: t[i] != '\n'
    ensures Evaluate.FindFrom(t + ("\n" + rest), false) == Evaluate.FindFrom(rest, true)
    decreases |t|
  {
    if t == [] {
      assert t + ("\n" + rest) == "\n" + rest;
      FindNewline(rest);
    } else {
      assert (t + ("\n" + rest))[1..] == t[1..] + ("\n" + rest);
      SkipLine(t[1..], rest);
    }
  }

  /** A match at a line start contributes its group, and the scan goes on
      after it. */
  lemma FindAfterMatch(s: string, n: nat, g: string)
    requires Evaluate.MatchHere(s) == Some((n, g))
    ensures 0 < n <= |s|
    ensures Evaluate.FindFrom(s, true) == [g] + Evaluate.FindFrom(s[n..], s[n - 1] == '\n')
  {
  }

  /** A line the pattern matches whole, followed by more text, contributes
      its group; the scan resumes at the next line. */
  lemma FindLine(line: string, g: string, rest: string)
    requires Evaluate.MatchHere(line + ("\n" + rest)) == Some((|line|, g))
    requires line[|line| - 1] != '\n'
    ensures Evaluate.FindFrom(line + ("\n" + rest), true) == [g] + Evaluate.FindFrom(rest, true)
  {
    var s := line + ("\n" + rest);
    FindAfterMatch(s, |line|, g);
    assert s[|line| - 1] == line[|line| - 1];
    assert s[|line|..] == "\n" + rest;
    FindNewline(rest);
  }

  /** A numbered line followed by more text contributes its name. */
  lemma FindNumbered(k: nat, name: string, rest: string)
    requires OneLine(name)
    ensures Evaluate.FindFrom(NumberedLine(k, name) + ("\n" + rest), true)
              == [name] + Evaluate.FindFrom(rest, true)
  {
    var line := NumberedLine(k, name);
    MatchNumbered(k, name, "\n" + rest);
    assert line[|line| - 1] == name[|name| - 1];
    FindLine(line, name, rest);
  }

  /** A numbered line at the end of the text contributes its name. */
  lemma FindLastNumbered(k: nat, name: string)
    requires OneLine(name)
    ensures Evaluate.FindFrom(NumberedLine(k, name), true) == [name]
  {
    var line := NumberedLine(k, name);
    assert line + [] == line;
    MatchNumbered(k, name, []);
    FindAfterMatch(line, |line|, name);
    assert line[|line|..] == [];
  }

  /** A line that starts with a space and has no line break. */
  predicate IndentedLine(a: string) {
    a != [] && a[0] == ' ' && forall i | 0 <= i < |a| :: a[i] != '\n'
  }

  /** An indented line contributes nothing. */
  lemma FindIndented(a: string, rest: string)
    requires IndentedLine(a)
    ensures Evaluate.FindFrom(a + ("\n" + rest), true) == Evaluate.FindFrom(rest, true)
  {
    var s := a + ("\n" + rest);
    RunPrefix([], s, IsDigit);
    assert [] + s == s;
    assert s[1..] == a[1..] + ("\n" + rest);
    SkipLine(a[1..], rest);
  }

  /** Neither piece has a line break, so their concatenation has none. */
  lemma NoBreak(a: string, b: string)
    requires forall i | 0 <= i < |a| :: a[i] != '\n'
    requires forall i | 0 <= i < |b| :: b[i] != '\n'
    ensures forall i | 0 <= i < |a + b| :: (a + b)[i] != '\n'
  {
    forall i | 0 <= i < |a + b| ensures (a + b)[i] != '\n' {
      if i >= |a| {
        assert (a + b)[i] == b[i - |a|];
      }
    }
  }

  /** An annotation line is indented and stays on its line when the exit
      is a direction or absent. */
  lemma AnnotationLine(exit: Option<string>)
    requires exit.None? || exit.value in DIRECTIONS
    ensures IndentedLine(Annotation(exit))
  {
    var shown := Shown(exit);
    assert shown == "front" || shown == "back" || shown == "None";
    var opening, middle := "   (exit: ", " → next entry: ";
    NoBreak(opening, shown);
    NoBreak(opening + shown, middle);
    NoBreak(opening + shown + middle, shown);
    NoBreak(opening + shown + middle + shown, ")");
    assert Annotation(exit) == opening + shown + middle + shown + ")";
  }

  /** The names of a combo's records, in order. */
  function Names(combo: seq<TrickRecord>): (names: seq<string>)
    ensures |names| == |combo|
    ensures forall j | 0 <= j < |combo| :: names[j] == combo[j].name
  {
    seq(|combo|, j requires 0 <= j < |combo| => combo[j].name)
  }

  /** A suffix of a sequence is its first element and the rest. */
  lemma SliceCons<T>(xs: seq<T>, i: nat)
    requires i < |xs|
    ensures xs[i..] == [xs[i]] + xs[i + 1..]
  {
  }

  /** Joining the lines from `i` on, when more than one is left. */
  lemma JoinFrom(lines: seq<string>, i: nat, sep: string)
    requires i + 1 < |lines|
    ensures JoinWith(lines[i..], sep) == lines[i] + (sep + JoinWith(lines[i + 1..], sep))
  {
    assert lines[i..][1..] == lines[i + 1..];
  }

  /** Joining the last line alone. */
  lemma JoinLast(lines: seq<string>, i: nat, sep: string)
    requires i + 1 == |lines|
    ensures JoinWith(lines[i..], sep) == lines[i]
  {
    assert lines[i..] == [lines[i]];
  }

  /** Line `j` of `lines` is the numbered line of `names[j]`, which fits
      on one line. */
  predicate LineAt(lines: seq<string>, names: seq<string>, j: nat) {
    j < |names| && j < |lines| && lines[j] == NumberedLine(j + 1, names[j]) && OneLine(names[j])
  }

  /** Scanning consecutive numbered lines from line `i` on yields the
      names from `i` on. */
  lemma {:induction false} FindLines(lines: seq<string>, names: seq<string>, i: nat)
    requires i < |names| && |lines| == |names|
    requires forall j | 0 <= j < |names| :: LineAt(lines, names, j)
    ensures Evaluate.FindFrom(JoinWith(lines[i..], "\n"), true) == names[i..]
    decreases |names| - i
  {
    assert LineAt(lines, names, i);
    SliceCons(names, i);
    if i == |names| - 1 {
      JoinLast(lines, i, "\n");
      FindLastNumbered(i + 1, names[i]);
      assert names[i + 1..] == [];
    } else {
      JoinFrom(lines, i, "\n");
      FindNumbered(i + 1, names[i], JoinWith(lines[i + 1..], "\n"));
      FindLines(lines, names, i + 1);
    }
  }

  /** Scanning the plain layout yields the names, in order. */
  lemma FindPlain(combo: seq<TrickRecord>)
    requires combo != []
    requires forall j | 0 <= j < |combo| :: OneLine(combo[j].name)
    ensures Evaluate.FindAll(JoinWith(ComboLines(combo), "\n")) == Names(combo)
  {
    var lines, names := ComboLines(combo), Names(combo);
    assert forall j | 0 <= j < |combo| :: LineAt(lines, names, j);
    FindLines(lines, names, 0);
    assert lines[0..] == lines && names[0..] == names;
  }

  /** A record whose name the scan captures whole and whose exit is a
      direction or absent. */
  predicate Printable(r: TrickRecord) {
    OneLine(r.name) && (r.exitFromTrick.None? || r.exitFromTrick.value in DIRECTIONS)
  }

  /** A numbered line and an indented line after it contribute the name
      alone. */
  lemma FindBlock(k: nat, name: string, note: string, rest: string)
    requires OneLine(name)
    requires IndentedLine(note)
    ensures Evaluate.FindFrom(NumberedLine(k, name) + ("\n" + (note + ("\n" + rest))), true)
              == [name] + Evaluate.FindFrom(rest, true)
  {
    FindNumbered(k, name, note + ("\n" + rest));
    FindIndented(note, rest);
  }

  /** Line `2j` of `lines` is name `j`'s numbered line. */
  predicate NumberedAt(lines: seq<string>, names: seq<string>, j: nat) {
    j < |names| && 2 * j < |lines| && lines[2 * j] == NumberedLine(j + 1, names[j]) && OneLine(names[j])
  }

  /** Line `2j + 1` of `lines` is indented and stays on its line. */
  predicate IndentedAt(lines: seq<string>, j: nat) {
    2 * j + 1 < |lines| && IndentedLine(lines[2 * j + 1])
  }

  /** Scanning numbered lines interleaved with indented lines, from line
      `2i` on, yields the names from `i` on. */
  lemma {:induction false} FindInterleaved(lines: seq<string>, names: seq<string>, i: nat)
    requires i < |names| && |lines| == 2 * |names| - 1
    requires forall j | 0 <= j < |names| :: NumberedAt(lines, names, j)
    requires forall j | 0 <= j < |names| - 1 :: IndentedAt(lines, j)
    ensures Evaluate.FindFrom(JoinWith(lines[2 * i..], "\n"), true) == names[i..]
    decreases |names| - i
  {
    assert NumberedAt(lines, names, i);
    SliceCons(names, i);
    if i == |names| - 1 {
      JoinLast(lines, 2 * i, "\n");
      FindLastNumbered(i + 1, names[i]);
      assert names[i + 1..] == [];
    } else {
      assert IndentedAt(lines, i);
      var rest := JoinWith(lines[2 * (i + 1)..], "\n");
      BlockText(lines, names, i);
      FindBlock(i + 1, names[i], lines[2 * i + 1], rest);
      FindInterleaved(lines, names, i + 1);
    }
  }

  /** The text from line `2i` on is the numbered line, the indented line
      after it and the text from line `2(i + 1)` on. */
  lemma BlockText(lines: seq<string>, names: seq<string>, i: nat)
    requires NumberedAt(lines, names, i) && 2 * i + 2 < |lines|
    ensures JoinWith(lines[2 * i..], "\n")
              == NumberedLine(i + 1, names[i]) + ("\n" + (lines[2 * i + 1] + ("\n" + JoinWith(lines[2 * (i + 1)..], "\n"))))
  {
    JoinFrom(lines, 2 * i, "\n");
    JoinFrom(lines, 2 * i + 1, "\n");
    assert 2 * i + 2 == 2 * (i + 1);
  }

  /** The detailed layout is numbered lines interleaved with indented
      annotation lines. */
  lemma DetailedShape(combo: seq<TrickRecord>)
    requires combo != []
    requires forall j | 0 <= j < |combo| :: Printable(combo[j])
    ensures var lines := DetailedLines(combo, |combo|);
            && |lines| == 2 * |Names(combo)| - 1
            && (forall j | 0 <= j < |combo| :: NumberedAt(lines, Names(combo), j))
            && (forall j | 0 <= j < |combo| - 1 :: IndentedAt(lines, j))
  {
    DetailedInterleaves(combo, |combo|);
    var lines := DetailedLines(combo, |combo|);
    forall j | 0 <= j < |combo| - 1
      ensures IndentedAt(lines, j)
    {
      AnnotationLine(combo[j].exitFromTrick);
    }
  }

  // ---------------------------------------------------------------------
  // Format, then parse
  // ---------------------------------------------------------------------

  /** When `f` gives a one-trick list for every element, the concatenation
      is those tricks in order. */
  lemma {:induction false} FlatMapSingles<X, Y>(xs: seq<X>, f: X -> seq<Y>, ys: seq<Y>)
    requires |xs| == |ys| && forall j | 0 <= j < |xs| :: f(xs[j]) == [ys[j]]
    ensures Evaluate.FlatMap(xs, f) == ys
    decreases |xs|
  {
    if xs != [] {
      forall j | 0 <= j < |xs| - 1
        ensures f(xs[1..][j]) == [ys[1..][j]]
      {
        assert xs[1..][j] == xs[j + 1] && ys[1..][j] == ys[j + 1];
      }
      FlatMapSingles(xs[1..], f, ys[1..]);
      assert ys == [ys[0]] + ys[1..];
    }
  }

  /** What the evaluator should read for a whole combo. */
  function ParsedCombo(fields: seq<Fields>): (ts: seq<Evaluate.ParsedTrick>)
    ensures |ts| == |fields|
    ensures forall j | 0 <= j < |fields| :: ts[j] == Expected(fields[j])
  {
    seq(|fields|, j requires 0 <= j < |fields| => Expected(fields[j]))
  }

  predicate AllResolved(fields: seq<Fields>) {
    forall j {:trigger Resolved(fields[j])} | 0 <= j < |fields| :: Resolved(fields[j])
  }

  /** The records' names each fit on one line and parse back to their
      tricks. */
  lemma NamesParse(fields: seq<Fields>)
    requires AllResolved(fields)
    ensures |Records(fields)| == |fields| && |ParsedCombo(fields)| == |fields|
    ensures forall j | 0 <= j < |Records(fields)| :: OneLine(Records(fields)[j].name)
    ensures Evaluate.ParsedLines(Names(Records(fields))) == ParsedCombo(fields)
  {
    var names := Names(Records(fields));
    forall j | 0 <= j < |fields|
      ensures OneLine(Records(fields)[j].name) && Evaluate.ParsedLine(names[j]) == [ParsedCombo(fields)[j]]
    {
      NameTokens(fields[j]);
      ParsesBack(fields[j]);
    }
    FlatMapSingles(names, Evaluate.ParsedLine, ParsedCombo(fields));
  }

  lemma RecordsPrintable(fields: seq<Fields>)
    requires AllResolved(fields)
    requires forall j | 0 <= j < |fields| :: ExitOk(fields[j])
    ensures forall j | 0 <= j < |fields| :: Printable(Records(fields)[j])
  {
    forall j | 0 <= j < |fields|
      ensures Printable(Records(fields)[j])
    {
      NameTokens(fields[j]);
      assert Records(fields)[j].exitFromTrick == fields[j].exitFromTrick;
    }
  }

  /** Records of initialised tricks with valid exits are printable, and
      their names parse to the tricks. */
  lemma ReadableRecords(fields: seq<Fields>)
    requires AllResolved(fields)
    requires forall j | 0 <= j < |fields| :: ExitOk(fields[j])
    ensures |Records(fields)| == |fields| && |ParsedCombo(fields)| == |fields|
    ensures forall j | 0 <= j < |Records(fields)| :: Printable(Records(fields)[j])
    ensures Evaluate.ParsedLines(Names(Records(fields))) == ParsedCombo(fields)
  {
    RecordsPrintable(fields);
    NamesParse(fields);
  }

  /** The plain layout of records whose names fit on one line parses to
      whatever their names parse to, when that is not empty. */
  lemma PlainParse(combo: seq<TrickRecord>, k: nat, ts: seq<Evaluate.ParsedTrick>)
    requires k == |combo| && k == |ts| && k > 0
    requires forall j | 0 <= j < |combo| :: OneLine(combo[j].name)
    requires Evaluate.ParsedLines(Names(combo)) == ts
    ensures Evaluate.ParseCombo(JoinWith(ComboLines(combo), "\n")) == Some(ts)
  {
    FindPlain(combo);
  }

  /** The detailed layout of printable records parses to whatever their
      names parse to, when that is not empty. */
  lemma DetailedParse(combo: seq<TrickRecord>, k: nat, ts: seq<Evaluate.ParsedTrick>)
    requires k == |combo| && k == |ts| && k > 0
    requires forall j | 0 <= j < |combo| :: Printable(combo[j])
    requires Evaluate.ParsedLines(Names(combo)) == ts
    ensures Evaluate.ParseCombo(JoinWith(DetailedLines(combo, k), "\n")) == Some(ts)
  {
    DetailedScan(combo);
  }

  /** Scanning the detailed layout yields exactly the names. */
  lemma DetailedScan(combo: seq<TrickRecord>)
    requires combo != []
    requires forall j | 0 <= j < |combo| :: Printable(combo[j])
    ensures Evaluate.FindAll(JoinWith(DetailedLines(combo, |combo|), "\n")) == Names(combo)
  {
    var lines := DetailedLines(combo, |combo|);
    DetailedShape(combo);
    FindInterleaved(lines, Names(combo), 0);
    assert lines[0..] == lines;
    assert Names(combo)[0..] == Names(combo);
  }
}
