/**
 * The history of an asset: for each log, the answers flagged critical and
 * those flagged as warnings, the colour of the log's border and the
 * all-clear note.
 */
module AssetHistory {
  import opened Wrappers
  import opened JsValue
  import opened JsArray
  import opened Types
  import ChecklistForm

  /** The answers listed under "critical" and under "warning". */
  datatype Summary = Summary(critical: seq<Json>, warnings: seq<Json>)

  predicate HasSeverity(a: Json, name: string)
  {
    Get(a, "severity") == Some(JStr(name))
  }

  predicate IsCriticalAnswer(a: Json) { HasSeverity(a, "critical") }

  predicate IsWarningAnswer(a: Json) { HasSeverity(a, "warning") }

  /**
   * The summary of a log's answers. Only an array is inspected; anything
   * else gives two empty lists. Reading `severity` of a `null` element
   * throws, so an array holding `null` has no summary (`None`): the list
   * fails to render.
   */
  function Classify(answers: Option<Json>): (r: Option<Summary>)
    ensures r.None? <==> answers.Some? && answers.value.JArr? && JNull in answers.value.elems
    ensures r.Some? && answers.Some? && answers.value.JArr? ==>
              var xs := answers.value.elems;
              IsSubsequence(r.value.critical, xs) && IsSubsequence(r.value.warnings, xs) &&
              (forall i :: 0 <= i < |r.value.critical| ==> IsCriticalAnswer(r.value.critical[i])) &&
              (forall i :: 0 <= i < |r.value.warnings| ==> IsWarningAnswer(r.value.warnings[i])) &&
              (forall i :: 0 <= i < |xs| ==> (xs[i] in r.value.critical <==> IsCriticalAnswer(xs[i]))) &&
              (forall i :: 0 <= i < |xs| ==> (xs[i] in r.value.warnings <==> IsWarningAnswer(xs[i])))
    ensures r.Some? && !(answers.Some? && answers.value.JArr?) ==> r.value == Summary([], [])
  {
    if answers.Some? && answers.value.JArr? then
      if JNull in answers.value.elems then None
      else Some(Summary(Filter(answers.value.elems, IsCriticalAnswer), Filter(answers.value.elems, IsWarningAnswer)))
    else Some(Summary([], []))
  }

  datatype Border = RedBorder | YellowBorder | GreenBorder

  /** Red when something is critical, else yellow when something warns, else green. */
  function BorderOf(s: Summary): (b: Border)
    ensures b == RedBorder <==> |s.critical| > 0
    ensures b == YellowBorder <==> |s.critical| == 0 && |s.warnings| > 0
  {
    if |s.critical| > 0 then RedBorder else if |s.warnings| > 0 then YellowBorder else GreenBorder
  }

  /** The "no findings" note. */
  predicate AllClear(s: Summary)
  {
    |s.critical| == 0 && |s.warnings| == 0
  }

  /** The border is green exactly when the all-clear note is shown. */
  lemma GreenIffAllClear(s: Summary)
    ensures BorderOf(s) == GreenBorder <==> AllClear(s)
  {
  }

  /** No answer is listed both as critical and as a warning; so the two lists together are no longer than the answers. */
  lemma ListsDisjoint(answers: Option<Json>)
    requires Classify(answers).Some?
    ensures |Classify(answers).value.critical| + |Classify(answers).value.warnings| <=
            (if answers.Some? && answers.value.JArr? then |answers.value.elems| else 0)
    ensures forall x :: !(x in Classify(answers).value.critical && x in Classify(answers).value.warnings)
  {
    if answers.Some? && answers.value.JArr? {
      FilterDisjointLengths(answers.value.elems, IsCriticalAnswer, IsWarningAnswer);
    }
  }

  /** The stored form of an answer is listed by its severity. */
  lemma StoredAnswerListed(a: ChecklistAnswer)
    ensures IsCriticalAnswer(AnswerToJson(a)) <==> a.severity == SeverityCritical
    ensures IsWarningAnswer(AnswerToJson(a)) <==> a.severity == SeverityWarning
  {
    assert Get(AnswerToJson(a), "severity") == Some(JStr(SeverityName(a.severity)));
  }

  /** Some of three answers qualifies exactly when one of them does. */
  lemma SomeOfThree(xs: seq<Json>, p: Json -> bool)
    requires |xs| == 3
    ensures |Filter(xs, p)| > 0 <==> p(xs[0]) || p(xs[1]) || p(xs[2])
  {
    FilterNonEmpty(xs, p);
  }

  /**
   * An inspection recorded by the form shows as critical exactly when the
   * oil level was critical or the leak major, and with a warning exactly
   * when noises were heard.
   */
  lemma FormInspectionSummary(f: ChecklistForm.FormAnswers)
    ensures var r := Classify(Some(ChecklistForm.AnswersJson(f)));
            r.Some? &&
            (|r.value.critical| > 0 <==> f.oilLevel == "critical" || f.leaks == "major") &&
            (|r.value.warnings| > 0 <==> f.noises == "yes") &&
            (BorderOf(r.value) == GreenBorder <==>
               f.oilLevel != "critical" && f.leaks != "major" && f.noises != "yes")
  {
    var xs := ChecklistForm.AnswersJson(f).elems;
    var a := ChecklistForm.BuildAnswers(f);
    StoredAnswerListed(a[0]);
    StoredAnswerListed(a[1]);
    StoredAnswerListed(a[2]);
    assert xs[0].JObj? && xs[1].JObj? && xs[2].JObj?;
    assert JNull !in xs;
    SomeOfThree(xs, IsCriticalAnswer);
    SomeOfThree(xs, IsWarningAnswer);
  }
}
