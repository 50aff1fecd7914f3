/** `splitSampleChat`: the example dialogue of a character, given as one text
    blob, is segmented into turns and then fitted into the optional budget.
    Callers observe only the kept turns (`additions`). */
module Splitter {
  import opened Wrappers
  import opened Text
  import opened SampleChat
  import opened BudgetFit

  /** Segments `sampleChat` with the character name `character` and the user name
      `sender`, then keeps the most recent turns that fit `budget`. */
  function SplitSampleChat(sampleChat: string, character: string, sender: string, budget: Option<int>,
                           notice: string, cost: Turn -> nat): (r: Result<FitResult, FitError>)
    ensures r.Err? <==> budget.Some? && budget.value < 0
    ensures budget.None? ==> r == Ok(FitResult(SegmentText(sampleChat, Context(character, sender, notice)), 0))
    ensures var turns := SegmentText(sampleChat, Context(character, sender, notice));
      r.Ok? ==> r.value.dropped <= |turns| && r.value.additions == turns[r.value.dropped..]
    ensures r.Ok? && budget.Some? ==> TotalCost(r.value.additions, cost) <= budget.value
    ensures var turns := SegmentText(sampleChat, Context(character, sender, notice));
      r.Ok? && budget.Some? && r.value.dropped > 0 ==> TotalCost(turns[r.value.dropped - 1..], cost) > budget.value
    ensures r.Ok? && TrimmedText(notice) ==>
              forall t :: t in r.value.additions ==> WellFormed(t, Context(character, sender, notice))
  {
    var c := Context(character, sender, notice);
    var turns := SegmentText(sampleChat, c);
    var r := Fit(turns, budget, cost);
    if TrimmedText(notice) && r.Ok? then
      SegmentWellFormed(SplitLines(NormalizeNewlines(sampleChat)), c);
      assert forall t :: t in r.value.additions ==> t in turns;
      r
    else r
  }

  /** A transcript written as lines is segmented line by line. */
  lemma SegmentJoined(lines: seq<string>, c: Context)
    requires |lines| >= 1
    requires forall i :: 0 <= i < |lines| ==> '\n' !in lines[i] && '\r' !in lines[i]
    ensures SegmentText(JoinLines(lines), c) == Segment(lines, c)
  {
    JoinLinesNoReturn(lines);
    NormalizeIdentity(JoinLines(lines));
    SplitJoinLines(lines);
  }
}
