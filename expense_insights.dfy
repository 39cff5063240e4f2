/** The AI insights panel of the expense screen: the reply of a text model is cut into
    lines, each line carrying a label becomes a categorised insight, at most three are
    shown, and a fixed set of three stands in when no line is labelled. The call to the
    model itself is an outcome handed to the panel: a reply text or a failure. */
module ExpenseInsights {
  import opened Seqs
  import opened Text

  datatype Category = Observation | Suggestion | Alert

  datatype Insight = Insight(text: string, category: Category)

  /** The label that marks a line as an insight of category `c`. */
  function Label(c: Category): string
  {
    match c
    case Observation => "Observation:"
    case Suggestion => "Suggestion:"
    case Alert => "Alert:"
  }

  /** The category a line is filed under: the first label it contains, checked in the
      order Observation, Suggestion, Alert, wherever in the line the labels stand. */
  function Classify(line: string): (r: Option<Category>)
    ensures r.Some? ==> Contains(line, Label(r.value))
  {
    if Contains(line, "Observation:") then Some(Observation)
    else if Contains(line, "Suggestion:") then Some(Suggestion)
    else if Contains(line, "Alert:") then Some(Alert)
    else None
  }

  /** The labels are tried in a fixed order: a line is an observation whenever it holds
      that label, a suggestion only without it, an alert only without both, and
      unlabelled exactly when it holds none of the three. */
  lemma ClassifyPriority(line: string)
    ensures Classify(line) == Some(Observation) <==> Contains(line, Label(Observation))
    ensures Classify(line) == Some(Suggestion) <==>
              !Contains(line, Label(Observation)) && Contains(line, Label(Suggestion))
    ensures Classify(line) == Some(Alert) <==>
              !Contains(line, Label(Observation)) && !Contains(line, Label(Suggestion)) && Contains(line, Label(Alert))
    ensures Classify(line) == None <==>
              !Contains(line, Label(Observation)) && !Contains(line, Label(Suggestion)) && !Contains(line, Label(Alert))
  {
  }

  /** The insight a line yields: its category's label removed once, the rest trimmed. */
  function InsightOf(line: string): (r: Option<Insight>)
    ensures r.Some? <==> Classify(line).Some?
    ensures r.Some? ==> r.value.category == Classify(line).value
  {
    match Classify(line)
    case None => None
    case Some(c) => Some(Insight(Trim(RemoveFirst(line, Label(c))), c))
  }

  /** An insight's text is shorter than its line by at least the label, and never
      starts or ends with white space. */
  lemma InsightTextShape(line: string)
    requires InsightOf(line).Some?
    ensures |InsightOf(line).value.text| <= |line| - |Label(InsightOf(line).value.category)|
    ensures InsightOf(line).value.text != [] ==>
              !IsWhite(InsightOf(line).value.text[0]) && !IsWhite(InsightOf(line).value.text[|InsightOf(line).value.text| - 1])
  {
    var c := Classify(line).value;
    var t := Trim(RemoveFirst(line, Label(c)));
    var i :| 0 <= i <= |RemoveFirst(line, Label(c))| && TrimmedAt(RemoveFirst(line, Label(c)), t, i);
  }

  /** The insights of `lines`, one per labelled line, in line order. */
  function Labelled(lines: seq<string>): (r: seq<Insight>)
    ensures |r| <= |lines|
  {
    if lines == [] then []
    else if InsightOf(lines[0]).None? then Labelled(lines[1..])
    else [InsightOf(lines[0]).value] + Labelled(lines[1..])
  }

  /** There is no insight exactly when no line is labelled. */
  lemma {:induction false} LabelledEmptyIff(lines: seq<string>)
    ensures Labelled(lines) == [] <==> forall l :: l in lines ==> InsightOf(l) == None
  {
    if lines != [] {
      LabelledEmptyIff(lines[1..]);
      assert forall l :: l in lines <==> l == lines[0] || l in lines[1..];
    }
  }

  /** Every insight comes from a line of the reply. */
  lemma {:induction false} LabelledFromLines(lines: seq<string>, x: Insight)
    requires x in Labelled(lines)
    ensures exists l :: l in lines && InsightOf(l) == Some(x)
  {
    if InsightOf(lines[0]) != Some(x) {
      LabelledFromLines(lines[1..], x);
      var l :| l in lines[1..] && InsightOf(l) == Some(x);
      assert l in lines;
    }
  }

  /** Insights of consecutive blocks of lines come out block after block. */
  lemma {:induction false} LabelledAppend(a: seq<string>, b: seq<string>)
    ensures Labelled(a + b) == Labelled(a) + Labelled(b)
  {
    if a == [] {
      assert a + b == b;
    } else {
      assert (a + b)[1..] == a[1..] + b;
      LabelledAppend(a[1..], b);
    }
  }

  /** A line that is blank once trimmed carries no label. */
  lemma BlankLineUnlabelled(line: string)
    requires Trim(line) == ""
    ensures InsightOf(line) == None
  {
    TrimEmptyIffBlank(line);
    assert !IsWhite('O') && !IsWhite('S') && !IsWhite('A');
    MissingCharNotContained(line, "Observation:", 'O');
    MissingCharNotContained(line, "Suggestion:", 'S');
    MissingCharNotContained(line, "Alert:", 'A');
  }

  predicate NonBlank(line: string)
  {
    Trim(line) != ""
  }

  /** The reply's lines with the blank ones dropped. */
  function NonBlankLines(text: string): (r: seq<string>)
    ensures forall l :: l in r <==> l in Split(text, '\n') && NonBlank(l)
  {
    Filter(Split(text, '\n'), NonBlank)
  }

  /** Dropping blank lines drops no insight. */
  lemma {:induction false} DropBlankKeepsInsights(lines: seq<string>)
    ensures Labelled(Filter(lines, NonBlank)) == Labelled(lines)
  {
    if lines != [] {
      DropBlankKeepsInsights(lines[1..]);
      if !NonBlank(lines[0]) {
        BlankLineUnlabelled(lines[0]);
      }
    }
  }

  const ObservationFallback: string := "Travel is the highest expense category, making up 45% of the total spend."
  const SuggestionFallback: string := "Consider reviewing software subscriptions as they account for 28% of expenses."
  const AlertFallback: string := "Monthly spend is at 72.5% of budget with half the month remaining."

  /** The three insights shown when the reply has no labelled line, one of each
      category in the order Observation, Suggestion, Alert. */
  function Fallback(): seq<Insight>
  {
    [Insight(ObservationFallback, Observation), Insight(SuggestionFallback, Suggestion), Insight(AlertFallback, Alert)]
  }

  /** What `parseInsights` returns: the fallback when no line is labelled, otherwise
      the first three insights; one to three insights either way. */
  function ParsedInsights(text: string): (r: seq<Insight>)
    ensures 1 <= |r| <= 3
  {
    var found := Labelled(NonBlankLines(text));
    if found == [] then Fallback() else Take(found, 3)
  }

  /** The reply's blank lines do not matter: the result is the fallback exactly when no
      line of the whole reply is labelled, and otherwise the insights of its first
      labelled lines, in reply order. */
  lemma ParsedInsightsMeaning(text: string)
    ensures (forall l :: l in Split(text, '\n') ==> InsightOf(l) == None) ==> ParsedInsights(text) == Fallback()
    ensures (exists l :: l in Split(text, '\n') && InsightOf(l).Some?) ==>
              ParsedInsights(text) == Take(Labelled(Split(text, '\n')), 3)
  {
    DropBlankKeepsInsights(Split(text, '\n'));
    LabelledEmptyIff(Split(text, '\n'));
  }

  /** `parseInsights`: one pass over the non-blank lines pushing the insight of each
      labelled line, then the fallback or the first three. */
  method ParseInsights(text: string) returns (r: seq<Insight>)
    ensures r == ParsedInsights(text)
  {
    var lines := NonBlankLines(text);
    var insights: seq<Insight> := [];
    for i := 0 to |lines|
      invariant insights == Labelled(lines[..i])
    {
      var line := lines[i];
      LabelledStep(lines, i);
      if Contains(line, "Observation:") {
        assert Classify(line) == Some(Observation);
        insights := insights + [Insight(Trim(RemoveFirst(line, "Observation:")), Observation)];
      } else if Contains(line, "Suggestion:") {
        assert Classify(line) == Some(Suggestion);
        insights := insights + [Insight(Trim(RemoveFirst(line, "Suggestion:")), Suggestion)];
      } else if Contains(line, "Alert:") {
        assert Classify(line) == Some(Alert);
        insights := insights + [Insight(Trim(RemoveFirst(line, "Alert:")), Alert)];
      } else {
        assert Classify(line) == None;
      }
    }
    assert lines[..|lines|] == lines;
    if |insights| == 0 {
      r := Fallback();
    } else {
      r := Take(insights, 3);
    }
  }

  /** One more line adds its insight, if it has one, at the end. */
  lemma LabelledStep(lines: seq<string>, i: nat)
    requires i < |lines|
    ensures Labelled(lines[..i + 1]) == Labelled(lines[..i]) + (if InsightOf(lines[i]).Some? then [InsightOf(lines[i]).value] else [])
  {
    assert lines[..i + 1] == lines[..i] + [lines[i]];
    LabelledAppend(lines[..i], [lines[i]]);
    LabelledSingle(lines[i]);
  }

  lemma LabelledSingle(line: string)
    ensures Labelled([line]) == if InsightOf(line).Some? then [InsightOf(line).value] else []
  {
    assert [line][1..] == [];
  }

  const FailureMessage: string := "Failed to generate insights. Please try again."

  /** The panel's state: the loading flag, the insights shown and the error shown. */
  class InsightsPanel {
    var isLoading: bool
    var insights: seq<Insight>
    var error: Option<string>

    constructor ()
      ensures !isLoading && insights == [] && error == None
    {
      isLoading := false;
      insights := [];
      error := None;
    }

    /** The start of `generateInsights`, before the model is asked. */
    method StartGenerate()
      modifies this
      ensures isLoading && insights == [] && error == None
    {
      isLoading := true;
      insights := [];
      error := None;
    }

    /** The end of `generateInsights` once the model has answered: `Some(text)` for a
        reply, `None` for a failed call or a reply without text. Either way loading
        stops; a failure shows the message and leaves no insights. */
    method FinishGenerate(reply: Option<string>)
      requires isLoading && insights == [] && error == None
      modifies this
      ensures !isLoading
      ensures reply.Some? ==> insights == ParsedInsights(reply.value) && error == None
      ensures reply.None? ==> insights == [] && error == Some(FailureMessage)
    {
      if reply.Some? {
        var parsed := ParseInsights(reply.value);
        insights := parsed;
      } else {
        error := Some(FailureMessage);
      }
      isLoading := false;
    }
  }
}
