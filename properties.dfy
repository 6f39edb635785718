/** The end-to-end round trip: both layouts the data generator writes
    for a combo are read back by the evaluator's parser as exactly that
    combo. */
module Properties {
  import opened Wrappers
  import opened Text
  import opened Wzrdbrain
  import opened GenerateData
  import Evaluate
  import opened RoundTrip

  // ---------------------------------------------------------------------
  // Format, then parse
  // ---------------------------------------------------------------------

  /** The plain layout of a non-empty combo of initialised tricks parses
      back to exactly those tricks: one per line, in order, with their
      directions, display words, stances and moves. */
  lemma PlainRoundTrip(fields: seq<Fields>)
    requires |fields| > 0 && AllResolved(fields)
    ensures Evaluate.ParseCombo(JoinWith(ComboLines(Records(fields)), "\n")) == Some(ParsedCombo(fields))
  {
    NamesParse(fields);
    PlainParse(Records(fields), |fields|, ParsedCombo(fields));
  }

  /** The detailed layout parses back to the same tricks as the plain
      one: its annotation lines are never captured. */
  lemma DetailedRoundTrip(fields: seq<Fields>)
    requires |fields| > 0 && AllResolved(fields)
    requires forall j | 0 <= j < |fields| :: ExitOk(fields[j])
    ensures Evaluate.ParseCombo(JoinWith(DetailedLines(Records(fields), |fields|), "\n")) == Some(ParsedCombo(fields))
  {
    ReadableRecords(fields);
    DetailedParse(Records(fields), |fields|, ParsedCombo(fields));
  }
}
