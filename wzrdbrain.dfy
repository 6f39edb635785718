/** The trick engine: the fixed value domains, the `Trick` record that
    validates what its caller supplies and fills the rest at random, its
    rendering as a name, and the random combo of trick names. */
module Wzrdbrain {
  import opened Wrappers
  import opened Text

  const DIRECTIONS: seq<string> := ["front", "back"]
  const STANCES: seq<string> := ["open", "closed"]
  /** The move names. The tuple's order only matters to `random.choice`,
      whose answer the model takes as a drawn value, so a set suffices. */
  const MOVES: set<string> := {
    "predator", "predator one", "parallel", "tree", "gazelle", "gazelle s",
    "lion", "lion s", "toe press", "heel press", "toe roll", "heel roll",
    "360", "180", "parallel slide", "soul slide", "acid slide", "mizu slide",
    "star slide", "fast slide", "back slide"
  }

  /** Moves whose names say "fakie"/"forward" instead of "back"/"front". */
  const USE_FAKIE: set<string> := {
    "toe press", "toe roll", "heel press", "heel roll", "360", "180",
    "parallel slide", "soul slide", "acid slide", "mizu slide", "star slide",
    "fast slide", "back slide"
  }

  /** Moves that have no open/closed stance. */
  const EXCLUDE_STANCE: set<string> := {"predator", "predator one"} + USE_FAKIE

  /** The two moves whose exit direction is the flip of their direction. */
  const FLIPPING_MOVES: seq<string> := ["gazelle", "lion"]

  /** The `ValueError` a `Trick` raises for a supplied value outside its domain. */
  datatype ValueError =
    | InvalidDirection(direction: string)
    | InvalidStance(stance: string)
    | InvalidMove(move: string)

  /** The five fields of a `Trick`; `None` is an absent value. */
  datatype Fields = Fields(
    direction: Option<string>,
    stance: Option<string>,
    move: Option<string>,
    enterIntoTrick: Option<string>,
    exitFromTrick: Option<string>)

  const BLANK: Fields := Fields(None, None, None, None, None)

  /** What the random source returns to the three `random.choice` calls of
      the trick's initialisation, whether or not each one is made. */
  datatype Draws = Draws(direction: string, stance: string, move: string)

  predicate ValidDraws(d: Draws) {
    d.direction in DIRECTIONS && d.stance in STANCES && d.move in MOVES
  }

  /** A trick after initialisation: a direction and a move from their
      domains, and a stance that is absent or from its domain. */
  predicate Resolved(f: Fields) {
    && f.direction.Some? && f.direction.value in DIRECTIONS
    && f.move.Some? && f.move.value in MOVES
    && (f.stance.Some? ==> f.stance.value in STANCES)
  }

  /** front <-> back */
  function Opposite(direction: string): (r: string)
    requires direction in DIRECTIONS
    ensures r in DIRECTIONS && r != direction
  {
    if direction == "back" then "front" else "back"
  }

  /** What initialising a trick with fields `f` does when the random source
      answers `d`: the validation errors, in the order they are checked,
      and otherwise the fields after defaulting and the exit flip. */
  function Resolve(f: Fields, d: Draws): (r: Result<Fields, ValueError>)
    requires ValidDraws(d)
    // validation runs first and in order: direction, stance, move
    ensures (f.direction.Some? && f.direction.value !in DIRECTIONS)
              <==> r == Failure(InvalidDirection(f.direction.GetOr("")))
    ensures ((f.direction.None? || f.direction.value in DIRECTIONS)
             && f.stance.Some? && f.stance.value !in STANCES)
              <==> r == Failure(InvalidStance(f.stance.GetOr("")))
    ensures ((f.direction.None? || f.direction.value in DIRECTIONS)
             && (f.stance.None? || f.stance.value in STANCES)
             && f.move.Some? && f.move.value !in MOVES)
              <==> r == Failure(InvalidMove(f.move.GetOr("")))
    ensures r.Success? ==> Resolved(r.value)
    // supplied values are kept, absent ones are drawn
    ensures r.Success? ==> r.value.direction == (if f.direction.Some? then f.direction else Some(d.direction))
    ensures r.Success? ==> r.value.move == (if f.move.Some? then f.move else Some(d.move))
    // a stance is drawn only when absent and the move takes one
    ensures r.Success? ==>
              (r.value.stance ==
                 if f.stance.None? && r.value.move.value !in EXCLUDE_STANCE then Some(d.stance) else f.stance)
    // enter/exit follow a drawn direction, and stay as given otherwise
    ensures r.Success? ==>
              (r.value.enterIntoTrick == if f.direction.None? then r.value.direction else f.enterIntoTrick)
    // gazelle and lion, and only they, leave in the opposite direction
    ensures r.Success? ==>
              (r.value.exitFromTrick ==
                 if r.value.move.value in FLIPPING_MOVES then Some(Opposite(r.value.direction.value))
                 else if f.direction.None? then r.value.direction
                 else f.exitFromTrick)
  {
    if f.direction.Some? && f.direction.value !in DIRECTIONS then
      Failure(InvalidDirection(f.direction.value))
    else if f.stance.Some? && f.stance.value !in STANCES then
      Failure(InvalidStance(f.stance.value))
    else if f.move.Some? && f.move.value !in MOVES then
      Failure(InvalidMove(f.move.value))
    else
      var direction := f.direction.GetOr(d.direction);
      var enter := if f.direction.None? then Some(direction) else f.enterIntoTrick;
      var exit := if f.direction.None? then Some(direction) else f.exitFromTrick;
      var move := f.move.GetOr(d.move);
      var stance := if f.stance.None? && move !in EXCLUDE_STANCE then Some(d.stance) else f.stance;
      var exit' :=
        if move in FLIPPING_MOVES then
          if direction == "back" then Some("front")
          else if direction == "front" then Some("back")
          else exit
        else exit;
      Success(Fields(Some(direction), stance, Some(move), enter, exit'))
  }

  /** Initialising an already initialised trick changes nothing and draws
      nothing: `Trick(**fields)` rebuilds the same trick. */
  lemma ResolveIdempotent(f: Fields, d: Draws, d': Draws)
    requires ValidDraws(d) && ValidDraws(d')
    requires Resolve(f, d).Success?
    ensures Resolve(Resolve(f, d).value, d') == Resolve(f, d)
  {
  }

  /** A trick built with no arguments never fails; its exit equals its
      direction, flipped for gazelle and lion. */
  lemma ResolveBlank(d: Draws)
    requires ValidDraws(d)
    ensures Resolve(BLANK, d).Success?
    ensures Resolve(BLANK, d).value.enterIntoTrick == Some(d.direction)
    ensures Resolve(BLANK, d).value.exitFromTrick ==
              Some(if d.move in FLIPPING_MOVES then Opposite(d.direction) else d.direction)
  {
  }

  /** The trick `Trick()` makes from draws `d`. */
  function RandomTrick(d: Draws): (f: Fields)
    requires ValidDraws(d)
    ensures Resolved(f) && Resolve(BLANK, d) == Success(f)
  {
    ResolveBlank(d);
    Resolve(BLANK, d).value
  }

  /** The direction word a name shows: "fakie"/"forward" for back/front on
      the moves of `USE_FAKIE`, the direction itself otherwise. */
  function DisplayDirection(f: Fields): Option<string> {
    if f.move.Some? && f.move.value in USE_FAKIE then
      if f.direction == Some("back") then Some("fakie")
      else if f.direction == Some("front") then Some("forward")
      else f.direction
    else f.direction
  }

  /** Back and front are shown as fakie and forward on the `USE_FAKIE`
      moves, and the direction is shown unchanged in every other case. */
  lemma DisplayDirectionFakie(f: Fields)
    ensures var fakie := f.move.Some? && f.move.value in USE_FAKIE;
            && (fakie && f.direction == Some("back") ==> DisplayDirection(f) == Some("fakie"))
            && (fakie && f.direction == Some("front") ==> DisplayDirection(f) == Some("forward"))
            && (DisplayDirection(f) != f.direction ==>
                  fakie && (f.direction == Some("back") || f.direction == Some("front")))
  {
  }

  /** A present, non-empty field value, as one part of a name. */
  function Part(v: Option<string>): seq<string> {
    if v.Some? && v.value != "" then [v.value] else []
  }

  /** `str(trick)`: display direction, stance and move, joined by single
      spaces, leaving out the parts that are absent or empty (and a
      display direction spelled "null"). */
  function Render(f: Fields): (name: string) {
    var display := DisplayDirection(f);
    var shown := if display == Some("null") then [] else Part(display);
    JoinWith(shown + Part(f.stance) + Part(f.move), " ")
  }

  /** A shown direction starts the name and a present move ends it; the
      name is empty only when nothing is shown. */
  lemma RenderShape(f: Fields)
    ensures var d := DisplayDirection(f);
            d.Some? && d.value != "" && d.value != "null" ==> d.value <= Render(f)
    ensures var name, m := Render(f), f.move;
            m.Some? && m.value != "" ==> |m.value| <= |name| && name[|name| - |m.value|..] == m.value
    ensures Render(f) == "" <==>
              && (DisplayDirection(f).None? || DisplayDirection(f).value == "" || DisplayDirection(f).value == "null")
              && (f.stance.None? || f.stance.value == "")
              && (f.move.None? || f.move.value == "")
  {
    var display := DisplayDirection(f);
    var shown := if display == Some("null") then [] else Part(display);
    var parts := shown + Part(f.stance) + Part(f.move);
    if parts != [] {
      JoinAffixes(parts, " ");
      assert parts[0] != "";
    }
  }

  /** The parts of an initialised trick's name: its display direction, its
      stance if it has one, and its move. */
  lemma {:induction false} RenderResolved(f: Fields)
    requires Resolved(f)
    ensures DisplayDirection(f).Some?
    ensures DisplayDirection(f).value ==
              if f.move.value in USE_FAKIE then (if f.direction.value == "back" then "fakie" else "forward")
              else f.direction.value
    ensures Render(f) == JoinWith([DisplayDirection(f).value]
                                  + (if f.stance.Some? then [f.stance.value] else [])
                                  + [f.move.value], " ")
  {
    var display := DisplayDirection(f);
    assert display != Some("null") && display.value != "";
    assert f.move.value != "";
    assert f.stance.Some? ==> f.stance.value != "";
  }

  /** A gazelle going front with an open stance is named "front",
      "open", "gazelle" joined by single spaces. */
  lemma RenderGazelle()
    ensures Render(Fields(Some("front"), Some("open"), Some("gazelle"), None, None))
              == JoinWith(["front", "open", "gazelle"], " ")
  {
    var f := Fields(Some("front"), Some("open"), Some("gazelle"), None, None);
    assert |"gazelle"| == 7;
    assert forall m | m in USE_FAKIE :: |m| != 7;
    assert DisplayDirection(f) == Some("front") != Some("null");
    assert Part(Some("front")) == ["front"] && Part(Some("open")) == ["open"];
    assert Part(Some("gazelle")) == ["gazelle"];
    assert ["front"] + ["open"] + ["gazelle"] == ["front", "open", "gazelle"];
  }

  /** A toe roll going back has no stance and is named "fakie toe roll". */
  lemma RenderFakie()
    ensures Render(Fields(Some("back"), None, Some("toe roll"), None, None)) == "fakie toe roll"
  {
    var f := Fields(Some("back"), None, Some("toe roll"), None, None);
    assert DisplayDirection(f) == Some("fakie");
    assert Render(f) == JoinWith(["fakie", "toe roll"], " ");
  }

  /** `trick.to_dict()`: the five fields and the name. */
  datatype TrickRecord = TrickRecord(
    direction: Option<string>,
    stance: Option<string>,
    move: Option<string>,
    enterIntoTrick: Option<string>,
    exitFromTrick: Option<string>,
    name: string)

  function FieldsOf(r: TrickRecord): Fields {
    Fields(r.direction, r.stance, r.move, r.enterIntoTrick, r.exitFromTrick)
  }

  function Record(f: Fields): (r: TrickRecord)
    ensures FieldsOf(r) == f
    ensures r.name == Render(f)
  {
    TrickRecord(f.direction, f.stance, f.move, f.enterIntoTrick, f.exitFromTrick, Render(f))
  }

  /** A trick: a record whose initialisation validates the supplied fields
      and fills in the absent ones. */
  class Trick {
    var direction: Option<string>
    var stance: Option<string>
    var move: Option<string>
    var enterIntoTrick: Option<string>
    var exitFromTrick: Option<string>

    function Snapshot(): Fields
      reads this
    {
      Fields(direction, stance, move, enterIntoTrick, exitFromTrick)
    }

    /** The generated field-by-field initialiser. */
    constructor (direction: Option<string>, stance: Option<string>, move: Option<string>,
                 enterIntoTrick: Option<string>, exitFromTrick: Option<string>)
      ensures Snapshot() == Fields(direction, stance, move, enterIntoTrick, exitFromTrick)
    {
      this.direction := direction;
      this.stance := stance;
      this.move := move;
      this.enterIntoTrick := enterIntoTrick;
      this.exitFromTrick := exitFromTrick;
    }

    /** Validation, then defaulting, then the gazelle/lion exit flip. An
        error leaves every field as it was. */
    method PostInit(d: Draws) returns (error: Option<ValueError>)
      requires ValidDraws(d)
      modifies this
      ensures Resolve(old(Snapshot()), d).Failure? ==>
                error == Some(Resolve(old(Snapshot()), d).error) && Snapshot() == old(Snapshot())
      ensures Resolve(old(Snapshot()), d).Success? ==>
                error == None && Snapshot() == Resolve(old(Snapshot()), d).value
    {
      if direction.Some? && direction.value !in DIRECTIONS {
        return Some(InvalidDirection(direction.value));
      }
      if stance.Some? && stance.value !in STANCES {
        return Some(InvalidStance(stance.value));
      }
      if move.Some? && move.value !in MOVES {
        return Some(InvalidMove(move.value));
      }
      if direction.None? {
        direction := Some(d.direction);
        enterIntoTrick := direction;
        exitFromTrick := direction;
      }
      if move.None? {
        move := Some(d.move);
      }
      if stance.None? && move.value !in EXCLUDE_STANCE {
        stance := Some(d.stance);
      }
      if move.value in FLIPPING_MOVES {
        if direction == Some("back") {
          exitFromTrick := Some("front");
        } else if direction == Some("front") {
          exitFromTrick := Some("back");
        }
      }
      error := None;
    }
  }

  /** `Trick(direction=…, stance=…, move=…, …)`: allocation, then
      initialisation; a `Failure` is the `ValueError` the call raises. */
  method NewTrick(direction: Option<string>, stance: Option<string>, move: Option<string>,
                  enterIntoTrick: Option<string>, exitFromTrick: Option<string>, d: Draws)
    returns (r: Result<Trick, ValueError>)
    requires ValidDraws(d)
    ensures var f := Fields(direction, stance, move, enterIntoTrick, exitFromTrick);
            && (r.Failure? <==> Resolve(f, d).Failure?)
            && (r.Failure? ==> r.error == Resolve(f, d).error)
            && (r.Success? ==> fresh(r.value) && r.value.Snapshot() == Resolve(f, d).value)
  {
    var t := new Trick(direction, stance, move, enterIntoTrick, exitFromTrick);
    var error := t.PostInit(d);
    if error.Some? {
      r := Failure(error.value);
    } else {
      r := Success(t);
    }
  }

  /** How many tricks `generate_combo` makes: the requested count, or the
      `random.randint(2, 5)` answer when none was requested. */
  function ComboLength(count: Option<int>, lengthDraw: int): (n: nat)
    requires count.None? ==> 2 <= lengthDraw <= 5
    ensures count.Some? ==> n == (if count.value < 0 then 0 else count.value)
    ensures count.None? ==> 2 <= n <= 5
  {
    var n := count.GetOr(lengthDraw);
    if n < 0 then 0 else n
  }

  /** Name `j` is the rendering of the trick built with no arguments from
      draw `j`. */
  predicate RandomNames(names: seq<string>, draws: seq<Draws>) {
    && |names| <= |draws|
    && forall j | 0 <= j < |names| :: ValidDraws(draws[j]) && names[j] == Render(RandomTrick(draws[j]))
  }

  lemma RandomNamesGrow(names: seq<string>, draws: seq<Draws>, name: string)
    requires RandomNames(names, draws) && |names| < |draws| && ValidDraws(draws[|names|])
    requires name == Render(RandomTrick(draws[|names|]))
    ensures RandomNames(names + [name], draws)
  {
    var longer := names + [name];
    forall j | 0 <= j < |longer|
      ensures ValidDraws(draws[j]) && longer[j] == Render(RandomTrick(draws[j]))
    {
      if j < |names| {
        assert longer[j] == names[j];
      }
    }
  }

  /** `generate_combo(count)`: the names of `ComboLength` tricks, each built
      with no arguments from its own draws. */
  method GenerateCombo(count: Option<int>, lengthDraw: int, draws: seq<Draws>) returns (names: seq<string>)
    requires count.None? ==> 2 <= lengthDraw <= 5
    requires |draws| >= ComboLength(count, lengthDraw)
    requires forall i | 0 <= i < |draws| :: ValidDraws(draws[i])
    ensures |names| == ComboLength(count, lengthDraw)
    ensures RandomNames(names, draws)
  {
    var n := ComboLength(count, lengthDraw);
    names := [];
    for i := 0 to n
      invariant |names| == i
      invariant RandomNames(names, draws)
    {
      var name := RandomName(draws[i]);
      RandomNamesGrow(names, draws, name);
      names := names + [name];
    }
  }

  /** One iteration of `generate_combo`: `str(Trick())`. */
  method RandomName(d: Draws) returns (name: string)
    requires ValidDraws(d)
    ensures name == Render(RandomTrick(d))
  {
    var t := new Trick(None, None, None, None, None);
    var _ := t.PostInit(d);
    name := Render(t.Snapshot());
  }
}
