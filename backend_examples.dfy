/** The transformer on the five-message table its test suite is written
    against: three authors, three days, word counts 5 to 25 and one reaction
    map per message. */
module BackendExamples {
  import opened Wrappers
  import opened Values
  import opened Tables
  import opened BackendEnums
  import opened BackendTransformer
  import Grouping

  function Midnight(day: int): Value {
    VTime(DateTime(CalendarDate(2023, 11, day), 0, 0, 0))
  }

  function Message(author: string, day: int, words: int, reactions: seq<(string, int)>): (r: Row)
    ensures r.Keys == {"author", "date", "word_count", "reactions"}
  {
    map["author" := VStr(author), "date" := Midnight(day), "word_count" := VInt(words),
        "reactions" := VReactions(reactions)]
  }

  const Sample: Table := Table(["author", "date", "word_count", "reactions"], [
    Message("John", 1, 5, [("thumbs_up", 2)]),
    Message("Alice", 1, 10, [("heart", 1)]),
    Message("John", 2, 15, [("thumbs_up", 1)]),
    Message("Bob", 3, 20, []),
    Message("Alice", 3, 25, [("thumbs_up", 3)])])

  lemma SampleReactions()
    ensures Column(Sample, "reactions") ==
      [VReactions([("thumbs_up", 2)]), VReactions([("heart", 1)]), VReactions([("thumbs_up", 1)]),
       VReactions([]), VReactions([("thumbs_up", 3)])]
  {
  }

  lemma SampleMostReactions()
    ensures MapCells(Column(Sample, "reactions"), MostReactions) == Ok([VInt(2), VInt(1), VInt(1), VInt(0), VInt(3)])
  {
    SampleReactions();
    var vals := MapCells(Column(Sample, "reactions"), MostReactions);
    assert vals.Ok?;
    assert vals.value == [VInt(2), VInt(1), VInt(1), VInt(0), VInt(3)];
  }

  lemma SampleReactionCountColumn()
    ensures Derivation(Sample, ReactionCount, None) == Ok(Some([VInt(2), VInt(1), VInt(1), VInt(0), VInt(3)]))
  {
    assert FieldValue(Reactions) == "reactions";
    SampleMostReactions();
    ReactionCountDerivation(Sample, [VInt(2), VInt(1), VInt(1), VInt(0), VInt(3)]);
  }

  /** Without a reaction name, REACTION_COUNT is the largest count of each
      message's reactions. */
  lemma ReactionCountDerivation(df: Table, vals: seq<Value>)
    requires FieldValue(Reactions) in df.columns
    requires MapCells(Column(df, FieldValue(Reactions)), MostReactions) == Ok(vals)
    ensures Derivation(df, ReactionCount, None) == Ok(Some(vals))
  {
  }

  /** REACTION_COUNT is each message's largest reaction count, 0 without any. */
  lemma SampleReactionCounts()
    ensures var r := AddFieldStep(Initial(Sample), "reaction_count", None);
      r.outcome == Pass && Column(r.state.df, "reaction_count") == [VInt(2), VInt(1), VInt(1), VInt(0), VInt(3)]
  {
    SampleReactionCountColumn();
    AddFieldColumn(Initial(Sample), ReactionCount, None, [VInt(2), VInt(1), VInt(1), VInt(0), VInt(3)]);
  }

  /** The running totals of the word counts are 5, 15, 30, 50, 75, the
      column `cumulative(WORD_COUNT)` inserts. */
  lemma SampleRunningTotals()
    ensures CumulativeValues([VInt(5), VInt(10), VInt(15), VInt(20), VInt(25)]) ==
      [VInt(5), VInt(15), VInt(30), VInt(50), VInt(75)]
  {
    var vals := [VInt(5), VInt(10), VInt(15), VInt(20), VInt(25)];
    var r := Grouping.RunningTotals(vals);
    forall k | 0 <= k < 5 ensures r[k].VInt? {
      assert Grouping.AllInts(vals[..k + 1]);
    }
    assert vals[..1] == [VInt(5)];
    assert Grouping.IntTotal([VInt(5)]) == 5 by { assert [VInt(5)][..0] == []; }
    Grouping.RunningTotalsStep(vals, 1);
    Grouping.RunningTotalsStep(vals, 2);
    Grouping.RunningTotalsStep(vals, 3);
    Grouping.RunningTotalsStep(vals, 4);
    assert r == [VInt(5), VInt(15), VInt(30), VInt(50), VInt(75)];
  }
}
