/**
 * The inspection dossier: which entries of a log's `answers` are shown as
 * checklist results, the colour of each result, the alert theme, and the
 * comment shown under a result.
 */
module InspectionDetail {
  import opened Wrappers
  import opened JsValue
  import JsString
  import opened JsArray

  /** `log.answers || {}`. */
  function LogData(answers: Option<Json>): (r: Json)
    ensures TruthyOpt(answers) ==> r == answers.value
    ensures !TruthyOpt(answers) ==> r == JObj([])
  {
    if TruthyOpt(answers) then answers.value else JObj([])
  }

  /** `logData.items || logData`: the answers, unwrapped from `items` when that is present. */
  function Inspected(logData: Json): (r: Json)
    ensures TruthyOpt(Get(logData, "items")) ==> r == Get(logData, "items").value
    ensures !TruthyOpt(Get(logData, "items")) ==> r == logData
  {
    var items := Get(logData, "items");
    if TruthyOpt(items) then items.value else logData
  }

  /** Keys that describe the inspection rather than a checklist item. */
  predicate IsMetadataKey(k: string)
  {
    k == "location" || k == "photoCount" || k == "isDraft" || k == "timestamp" || k == "items"
  }

  predicate IsCommentKey(k: string)
  {
    JsString.EndsWith(k, "_comment")
  }

  /** An entry shown as a checklist result: not metadata, not a comment, and not an object. */
  predicate IsChecklistItem(e: (string, Json))
  {
    !IsMetadataKey(e.0) && !IsCommentKey(e.0) && !IsObjectType(e.1)
  }

  /** The checklist results of a log, in the order `Object.entries` lists them. */
  function ChecklistItems(answers: Option<Json>): (r: seq<(string, Json)>)
    ensures IsSubsequence(r, Entries(Inspected(LogData(answers))))
    ensures forall i :: 0 <= i < |r| ==> IsChecklistItem(r[i])
    ensures forall i :: 0 <= i < |Entries(Inspected(LogData(answers)))| ==>
              (Entries(Inspected(LogData(answers)))[i] in r <==> IsChecklistItem(Entries(Inspected(LogData(answers)))[i]))
  {
    Filter(Entries(Inspected(LogData(answers))), IsChecklistItem)
  }

  /** A failing value: the strings "fail" and "critical". */
  predicate IsFailValue(v: Json)
  {
    v == JStr("fail") || v == JStr("critical")
  }

  predicate IsFailEntry(e: (string, Json))
  {
    IsFailValue(e.1)
  }

  /** Some result fails. */
  predicate HasFailures(items: seq<(string, Json)>)
  {
    AnyMatch(items, IsFailEntry)
  }

  datatype Theme = CriticalAlertTheme | OperationalTheme

  function ThemeOf(items: seq<(string, Json)>): Theme
  {
    if HasFailures(items) then CriticalAlertTheme else OperationalTheme
  }

  datatype StatusColor = Red | Green | Grey

  /** Red for a failure, green for "pass", grey for anything else. */
  function StatusColorOf(v: Json): (c: StatusColor)
    ensures c == Red <==> IsFailValue(v)
    ensures c == Green <==> v == JStr("pass")
  {
    if IsFailValue(v) then Red else if v == JStr("pass") then Green else Grey
  }

  /** `answers[key + '_comment']`, shown only when truthy. */
  function CommentFor(inspected: Json, key: string): (r: Option<Json>)
    ensures inspected.JObj? ==> r == Lookup(inspected.entries, key + "_comment")
    ensures !inspected.JObj? ==> r == None
  {
    Get(inspected, key + "_comment")
  }

  predicate ShowsComment(inspected: Json, key: string)
  {
    TruthyOpt(CommentFor(inspected, key))
  }

  /** The placeholder replaces the results exactly when there are none. */
  predicate ShowsEmptyState(items: seq<(string, Json)>)
  {
    |items| == 0
  }

  /** The alert theme is on exactly when some result is drawn red. */
  lemma ThemeMatchesColors(items: seq<(string, Json)>)
    ensures ThemeOf(items) == CriticalAlertTheme <==> exists i :: 0 <= i < |items| && StatusColorOf(items[i].1) == Red
  {
    AnyMatchIff(items, IsFailEntry);
  }

  /** A log without answers, or with falsy ones, shows the placeholder and the operational theme. */
  lemma MissingAnswersShowNothing(answers: Option<Json>)
    requires !TruthyOpt(answers)
    ensures ShowsEmptyState(ChecklistItems(answers))
    ensures ThemeOf(ChecklistItems(answers)) == OperationalTheme
  {
    assert LogData(answers) == JObj([]);
    assert Get(JObj([]), "items") == None;
  }

  /**
   * Answers stored as an array of answer objects, as the inspection form
   * stores them, have only object values: nothing is shown as a result
   * and the theme stays operational, whatever the severities say.
   */
  lemma {:induction false} AnswerArrayShowsNothing(elems: seq<Json>)
    requires forall i :: 0 <= i < |elems| ==> elems[i].JObj?
    ensures ShowsEmptyState(ChecklistItems(Some(JArr(elems))))
    ensures ThemeOf(ChecklistItems(Some(JArr(elems)))) == OperationalTheme
  {
    var v := JArr(elems);
    assert LogData(Some(v)) == v;
    assert Inspected(v) == v;
    var es := Entries(v);
    assert forall i :: 0 <= i < |es| ==> !IsChecklistItem(es[i]);
    FilterNone(es, IsChecklistItem);
  }

  /** Results keyed by a metadata or comment name are never shown, whatever their value. */
  lemma HiddenKeys(answers: Option<Json>, k: string, v: Json)
    requires IsMetadataKey(k) || IsCommentKey(k)
    ensures (k, v) !in ChecklistItems(answers)
  {
  }
}
