/** The pieces of Python's `str` that the combo code relies on: `isspace`,
    `split()` without arguments, `strip()`, `lower()`, `sep.join(parts)` and
    the decimal rendering of a positive `int`. Characters are Unicode scalar
    values; `lower()` and the digit class are modelled on ASCII only. */
module Text {

  /** Python's `str.isspace` for one character (the set the `re` module's
      `\s` and `str.split()` both use). */
  predicate IsSpace(c: char) {
    || c == ' '
    || ('\t' <= c <= '\r')
    || ('\U{1c}' <= c <= '\U{1f}')
    || c == '\U{85}' || c == '\U{a0}' || c == '\U{1680}'
    || ('\U{2000}' <= c <= '\U{200a}')
    || c == '\U{2028}' || c == '\U{2029}' || c == '\U{202f}' || c == '\U{205f}'
    || c == '\U{3000}'
  }

  predicate IsDigit(c: char) {
    '0' <= c <= '9'
  }

  predicate IsUpper(c: char) {
    'A' <= c <= 'Z'
  }

  predicate NoSpace(s: string) {
    forall i | 0 <= i < |s| :: !IsSpace(s[i])
  }

  predicate NoUpper(s: string) {
    forall i | 0 <= i < |s| :: !IsUpper(s[i])
  }

  /** A word as `split()` produces it: non-empty, no whitespace. */
  predicate IsWord(w: string) {
    w != [] && NoSpace(w)
  }

  function LowerChar(c: char): (d: char)
    ensures !IsUpper(d)
    ensures !IsUpper(c) ==> d == c
    ensures IsSpace(d) <==> IsSpace(c)
  {
    if IsUpper(c) then (c as int - 'A' as int + 'a' as int) as char else c
  }

  /** `s.lower()` */
  function Lower(s: string): (r: string)
    ensures |r| == |s| && NoUpper(r)
    ensures forall i | 0 <= i < |s| :: r[i] == LowerChar(s[i])
  {
    seq(|s|, i requires 0 <= i < |s| => LowerChar(s[i]))
  }

  lemma LowerOfLower(s: string)
    requires NoUpper(s)
    ensures Lower(s) == s
  {
  }

  /** `s.lstrip()` */
  function TrimLeft(s: string): (r: string)
    decreases |s|
    ensures |r| <= |s| && r == s[|s| - |r|..]
    ensures r != [] ==> !IsSpace(r[0])
    ensures forall i | 0 <= i < |s| - |r| :: IsSpace(s[i])
  {
    if s != [] && IsSpace(s[0]) then TrimLeft(s[1..]) else s
  }

  /** `s.rstrip()` */
  function TrimRight(s: string): (r: string)
    decreases |s|
    ensures |r| <= |s| && r == s[..|r|]
    ensures r != [] ==> !IsSpace(r[|r| - 1])
    ensures forall i | |r| <= i < |s| :: IsSpace(s[i])
  {
    if s != [] && IsSpace(s[|s| - 1]) then TrimRight(s[..|s| - 1]) else s
  }

  /** `s.strip()` */
  function Strip(s: string): (r: string)
    ensures r != [] ==> !IsSpace(r[0]) && !IsSpace(r[|r| - 1])
  {
    TrimRight(TrimLeft(s))
  }

  /** A string that already starts and ends with a non-space is its own strip. */
  lemma StripClean(s: string)
    requires s != [] && !IsSpace(s[0]) && !IsSpace(s[|s| - 1])
    ensures Strip(s) == s
  {
  }

  /** Length of the leading run of non-space characters. */
  function WordLength(s: string): (k: nat)
    decreases |s|
    ensures k <= |s| && NoSpace(s[..k])
    ensures k < |s| ==> IsSpace(s[k])
  {
    if s != [] && !IsSpace(s[0]) then 1 + WordLength(s[1..]) else 0
  }

  /** `s.split()`: the maximal runs of non-space characters, in order. */
  function Split(s: string): (words: seq<string>)
    decreases |s|
    ensures forall j | 0 <= j < |words| :: IsWord(words[j])
  {
    var t := TrimLeft(s);
    if t == [] then []
    else
      var k := WordLength(t);
      var w := t[..k];
      var rest := Split(t[k..]);
      ConsWords(w, rest);
      [w] + rest
  }

  lemma ConsWords(w: string, rest: seq<string>)
    requires IsWord(w) && forall j | 0 <= j < |rest| :: IsWord(rest[j])
    ensures forall j | 0 <= j < |[w] + rest| :: IsWord(([w] + rest)[j])
  {
  }

  /** `sep.join(parts)` */
  function JoinWith(parts: seq<string>, sep: string): string {
    if parts == [] then ""
    else if |parts| == 1 then parts[0]
    else parts[0] + sep + JoinWith(parts[1..], sep)
  }

  lemma {:induction false} SplitSpaced(w: string, c: char, rest: string)
    requires IsWord(w) && IsSpace(c)
    ensures Split(w + [c] + rest) == [w] + Split(rest)
  {
    var tail := [c] + rest;
    var s := w + tail;
    assert w + [c] + rest == s;
    assert s[0] == w[0];
    assert TrimLeft(s) == s;
    WordOfPrefix(w, tail);
    assert s[|w|..] == tail;
    assert Split(s) == [w] + Split(tail);
    assert tail[1..] == rest;
    assert TrimLeft(tail) == TrimLeft(rest);
    SplitAfterTrim(tail, rest);
  }

  lemma SplitAfterTrim(a: string, b: string)
    requires TrimLeft(a) == TrimLeft(b)
    ensures Split(a) == Split(b)
  {
  }

  lemma {:induction false} WordOfPrefix(w: string, rest: string)
    requires NoSpace(w)
    requires rest == [] || IsSpace(rest[0])
    ensures WordLength(w + rest) == |w| && (w + rest)[..|w|] == w
    decreases |w|
  {
    if w != [] {
      assert (w + rest)[1..] == w[1..] + rest;
      WordOfPrefix(w[1..], rest);
    }
  }

  lemma {:induction false} SplitWord(w: string)
    requires IsWord(w)
    ensures Split(w) == [w]
  {
    assert TrimLeft(w) == w;
    WordOfPrefix(w, []);
    assert w + [] == w;
    assert w[|w|..] == [];
  }

  /** `" ".join(words).split()` gives the words back. */
  lemma {:induction false} SplitJoin(words: seq<string>)
    requires forall j | 0 <= j < |words| :: IsWord(words[j])
    ensures Split(JoinWith(words, " ")) == words
    decreases |words|
  {
    if |words| == 1 {
      SplitWord(words[0]);
    } else if |words| > 1 {
      var rest := words[1..];
      assert forall j | 0 <= j < |rest| :: rest[j] == words[j + 1];
      SplitJoin(rest);
      var tail := JoinWith(rest, " ");
      assert JoinWith(words, " ") == words[0] + [' '] + tail;
      SplitSpaced(words[0], ' ', tail);
      assert Split(JoinWith(words, " ")) == [words[0]] + rest;
      HeadTail(words);
    } else {
      assert JoinWith(words, " ") == "" && TrimLeft("") == "";
    }
  }

  /** A non-empty sequence is its head followed by its tail. */
  lemma HeadTail<T>(xs: seq<T>)
    requires xs != []
    ensures xs == [xs[0]] + xs[1..]
  {
  }

  /** Joining a joined tail is joining the concatenation. */
  lemma {:induction false} JoinFlatten(head: seq<string>, tail: seq<string>, sep: string)
    requires tail != []
    ensures JoinWith(head + [JoinWith(tail, sep)], sep) == JoinWith(head + tail, sep)
    decreases |head|
  {
    if head == [] {
      assert head + [JoinWith(tail, sep)] == [JoinWith(tail, sep)];
      assert head + tail == tail;
    } else {
      JoinFlatten(head[1..], tail, sep);
      assert (head + [JoinWith(tail, sep)])[1..] == head[1..] + [JoinWith(tail, sep)];
      assert (head + tail)[1..] == head[1..] + tail;
    }
  }

  /** A join of words starts with the first word's first character and
      ends with the last word's last character. */
  lemma {:induction false} JoinEnds(words: seq<string>, sep: string)
    requires words != [] && forall j | 0 <= j < |words| :: words[j] != []
    ensures JoinWith(words, sep) != []
    ensures JoinWith(words, sep)[0] == words[0][0]
    ensures JoinWith(words, sep)[|JoinWith(words, sep)| - 1] == words[|words| - 1][|words[|words| - 1]| - 1]
    decreases |words|
  {
    if |words| > 1 {
      JoinEnds(words[1..], sep);
    }
  }

  /** A join starts with its first part and ends with its last. */
  lemma {:induction false} JoinAffixes(parts: seq<string>, sep: string)
    requires parts != []
    ensures parts[0] <= JoinWith(parts, sep)
    ensures var j, last := JoinWith(parts, sep), parts[|parts| - 1];
            |last| <= |j| && j[|j| - |last|..] == last
    decreases |parts|
  {
    if |parts| > 1 {
      JoinAffixes(parts[1..], sep);
      var tail := JoinWith(parts[1..], sep);
      assert JoinWith(parts, sep) == (parts[0] + sep) + tail;
      assert parts[|parts| - 1] == parts[1..][|parts| - 2];
    }
  }

  /** Every character of a join comes from a part or from the separator,
      so a property of all of those holds of the join. */
  lemma {:induction false} JoinKeeps(parts: seq<string>, sep: string, p: char -> bool)
    requires forall j, i | 0 <= j < |parts| && 0 <= i < |parts[j]| :: p(parts[j][i])
    requires forall i | 0 <= i < |sep| :: p(sep[i])
    ensures forall i | 0 <= i < |JoinWith(parts, sep)| :: p(JoinWith(parts, sep)[i])
    decreases |parts|
  {
    if |parts| > 1 {
      JoinKeeps(parts[1..], sep, p);
      var head, tail := parts[0] + sep, JoinWith(parts[1..], sep);
      assert JoinWith(parts, sep) == head + tail;
      forall i | 0 <= i < |head + tail| ensures p((head + tail)[i]) {
        if i >= |head| {
          assert (head + tail)[i] == tail[i - |head|];
        } else if i >= |parts[0]| {
          assert (head + tail)[i] == sep[i - |parts[0]|];
        }
      }
    }
  }

  /** Each part of a join appears in it, at offset `k`. */
  lemma {:induction false} PartOfJoin(parts: seq<string>, j: nat, sep: string) returns (k: nat)
    requires j < |parts|
    ensures k + |parts[j]| <= |JoinWith(parts, sep)|
    ensures JoinWith(parts, sep)[k..k + |parts[j]|] == parts[j]
    decreases j
  {
    if |parts| == 1 {
      k := 0;
    } else {
      var head, tail := parts[0] + sep, JoinWith(parts[1..], sep);
      assert JoinWith(parts, sep) == head + tail;
      if j == 0 {
        k := 0;
      } else {
        var k' := PartOfJoin(parts[1..], j - 1, sep);
        k := |head| + k';
        assert (head + tail)[k..k + |parts[j]|] == tail[k'..k' + |parts[j]|];
      }
    }
  }

  /** Words separated by single ASCII spaces, with no space at either end. */
  predicate SingleSpaced(s: string) {
    && s != [] && !IsSpace(s[0]) && !IsSpace(s[|s| - 1])
    && (forall i | 0 <= i < |s| :: IsSpace(s[i]) ==> s[i] == ' ')
    && (forall i | 0 <= i < |s| - 1 :: s[i] == ' ' ==> s[i + 1] != ' ')
  }

  /** A single-spaced string is `" ".join` of its own `split()`. */
  lemma {:induction false} SplitSingleSpaced(s: string)
    requires SingleSpaced(s)
    ensures Split(s) != [] && Split(s)[0] != [] && Split(s)[0][0] == s[0]
    ensures JoinWith(Split(s), " ") == s
    decreases |s|
  {
    var k := FirstWord(s);
    if k == |s| {
      assert s[..k] == s;
      SplitWord(s);
    } else {
      var w, rest := s[..k], s[k + 1..];
      RestSingleSpaced(s, k);
      SplitSingleSpaced(rest);
      SplitSpaced(w, ' ', rest);
      assert Split(s) == [w] + Split(rest);
      assert JoinWith([w] + Split(rest), " ") == w + " " + JoinWith(Split(rest), " ");
    }
  }

  /** The first word of a single-spaced string: its length, and either it
      is the whole string or a single space follows it. */
  lemma FirstWord(s: string) returns (k: nat)
    requires SingleSpaced(s)
    ensures k == WordLength(s) && 0 < k <= |s| && Split(s) != []
    ensures k < |s| ==> s[k] == ' ' && s == s[..k] + [' '] + s[k + 1..]
  {
    k := WordLength(s);
    assert 0 < k by { assert !IsSpace(s[0]); }
    assert Split(s) != [] by { assert TrimLeft(s) == s; }
    if k < |s| {
      assert IsSpace(s[k]);
      assert s == s[..k] + [' '] + s[k + 1..];
    }
  }

  /** What follows the first word and its space is single-spaced too. */
  lemma RestSingleSpaced(s: string, k: nat)
    requires SingleSpaced(s) && k == WordLength(s) && k < |s| && s[k] == ' '
    ensures IsWord(s[..k]) && SingleSpaced(s[k + 1..])
  {
    var rest := s[k + 1..];
    assert 0 < k && k + 1 < |s|;
    assert forall i | 0 <= i < |rest| :: rest[i] == s[k + 1 + i];
    assert rest[0] != ' ';
  }

  function DigitChar(d: nat): (c: char)
    requires d < 10
    ensures IsDigit(c)
  {
    ('0' as int + d) as char
  }

  /** `str(n)` for a natural number: its decimal digits, no sign, no padding. */
  function Decimal(n: nat): (s: string)
    ensures s != []
    ensures forall i | 0 <= i < |s| :: IsDigit(s[i])
  {
    if n < 10 then [DigitChar(n)] else Decimal(n / 10) + [DigitChar(n % 10)]
  }

  /** The words of single-spaced lower-case text are lower-case words. */
  lemma {:induction false} SingleSpacedWords(s: string)
    requires SingleSpaced(s) && NoUpper(s)
    ensures forall j | 0 <= j < |Split(s)| :: NoUpper(Split(s)[j])
  {
    SplitSingleSpaced(s);
    forall j | 0 <= j < |Split(s)|
      ensures NoUpper(Split(s)[j])
    {
      PartNoUpper(Split(s), j, " ");
    }
  }

  /** The words of a string without upper-case letters have none either. */
  lemma {:induction false} SplitNoUpper(s: string)
    requires NoUpper(s)
    ensures forall j | 0 <= j < |Split(s)| :: NoUpper(Split(s)[j])
    decreases |s|
  {
    var t := TrimLeft(s);
    if t != [] {
      var k := WordLength(t);
      NoUpperSlice(s, |s| - |t|, t);
      NoUpperSlice(t, 0, t[..k]);
      NoUpperSlice(t, k, t[k..]);
      var rest := Split(t[k..]);
      SplitNoUpper(t[k..]);
      assert Split(s) == [t[..k]] + rest;
      ConsNoUpper(t[..k], rest);
    }
  }

  lemma ConsNoUpper(w: string, rest: seq<string>)
    requires NoUpper(w) && forall j | 0 <= j < |rest| :: NoUpper(rest[j])
    ensures forall j | 0 <= j < |[w] + rest| :: NoUpper(([w] + rest)[j])
  {
  }

  /** `split()` finds no word exactly when the string is all whitespace. */
  lemma SplitEmpty(s: string)
    ensures Split(s) == [] <==> forall i | 0 <= i < |s| :: IsSpace(s[i])
  {
    var t := TrimLeft(s);
    if t != [] {
      assert !IsSpace(s[|s| - |t|]);
    }
  }

  /** `strip()` leaves nothing exactly when the string is all whitespace. */
  lemma StripEmpty(s: string)
    ensures Strip(s) == [] <==> forall i | 0 <= i < |s| :: IsSpace(s[i])
  {
    var t := TrimLeft(s);
    var r := TrimRight(t);
    if r != [] {
      assert !IsSpace(t[0]);
      assert !IsSpace(s[|s| - |t|]);
    }
  }

  /** The parts of a join without upper-case letters have none either. */
  lemma PartNoUpper(parts: seq<string>, j: nat, sep: string)
    requires j < |parts| && NoUpper(JoinWith(parts, sep))
    ensures NoUpper(parts[j])
  {
    var k := PartOfJoin(parts, j, sep);
    NoUpperSlice(JoinWith(parts, sep), k, parts[j]);
  }

  lemma NoUpperSlice(s: string, k: nat, w: string)
    requires NoUpper(s) && k + |w| <= |s| && s[k..k + |w|] == w
    ensures NoUpper(w)
  {
    forall i | 0 <= i < |w|
      ensures !IsUpper(w[i])
    {
      assert w[i] == s[k + i];
    }
  }
}
