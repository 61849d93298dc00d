/**
 * The inspection form: its initial state, the mapping from the selected
 * options to answers with severities, and the submission that stores the
 * inspection in the local queue.
 */
module ChecklistForm {
  import opened Wrappers
  import opened JsValue
  import opened Types
  import opened OfflineDb

  /** The options selected in the form. */
  datatype FormAnswers = FormAnswers(oilLevel: string, noises: string, leaks: string, performance: string)

  /** The options a fresh form starts with. */
  const DefaultAnswers: FormAnswers := FormAnswers("ok", "no", "no", "normal")

  /** A critical oil level is critical; every other level is fine. */
  function OilSeverity(v: string): (r: Severity)
    ensures r == SeverityCritical <==> v == "critical"
    ensures r != SeverityWarning
  {
    if v == "critical" then SeverityCritical else SeverityOk
  }

  /** Noises are a warning; their absence is fine. */
  function NoiseSeverity(v: string): (r: Severity)
    ensures r == SeverityWarning <==> v == "yes"
    ensures r != SeverityCritical
  {
    if v == "yes" then SeverityWarning else SeverityOk
  }

  /** A major leak is critical; a minor one, or none, is fine. */
  function LeakSeverity(v: string): (r: Severity)
    ensures r == SeverityCritical <==> v == "major"
    ensures r != SeverityWarning
  {
    if v == "major" then SeverityCritical else SeverityOk
  }

  /** The answers recorded: oil, noises and leaks, in that order. */
  function BuildAnswers(f: FormAnswers): (r: seq<ChecklistAnswer>)
    ensures |r| == 3
    ensures r[0].questionId == "oil" && r[1].questionId == "noises" && r[2].questionId == "leaks"
    ensures r[0].value == f.oilLevel && r[1].value == f.noises && r[2].value == f.leaks
    ensures r[0].severity == OilSeverity(f.oilLevel) && r[1].severity == NoiseSeverity(f.noises) &&
            r[2].severity == LeakSeverity(f.leaks)
    ensures forall i :: 0 <= i < 3 ==> r[i].photoUrl.None? && r[i].notes.None?
  {
    [ChecklistAnswer("oil", f.oilLevel, OilSeverity(f.oilLevel), None, None),
     ChecklistAnswer("noises", f.noises, NoiseSeverity(f.noises), None, None),
     ChecklistAnswer("leaks", f.leaks, LeakSeverity(f.leaks), None, None)]
  }

  /** The answers as the array the record stores. */
  function AnswersJson(f: FormAnswers): (r: Json)
    ensures r.JArr? && |r.elems| == 3
    ensures forall i :: 0 <= i < 3 ==> r.elems[i] == AnswerToJson(BuildAnswers(f)[i])
  {
    var a := BuildAnswers(f);
    JArr([AnswerToJson(a[0]), AnswerToJson(a[1]), AnswerToJson(a[2])])
  }

  /**
   * The record the form queues: no operator, no location, no photo, not
   * yet synchronised.
   */
  function BuildRecord(assetId: string, hours: real, f: FormAnswers, id: string, now: nat): (r: OfflineLog)
    ensures r.id == id && r.assetId == assetId && r.hoursReading == hours && r.createdAt == now
    ensures r.answers == Some(AnswersJson(f))
    ensures r.operatorId.None? && r.gpsLocation.None? && r.photoBlob.None? && !r.synced
  {
    OfflineLog(id, assetId, None, hours, Some(AnswersJson(f)), None, now, false, None)
  }

  /** The performance option is shown but never recorded. */
  lemma PerformanceNotRecorded(f: FormAnswers, performance: string)
    ensures BuildAnswers(f.(performance := performance)) == BuildAnswers(f)
  {
  }

  /** A form submitted as it opens reports nothing wrong. */
  lemma DefaultsAreAllOk()
    ensures forall i :: 0 <= i < 3 ==> BuildAnswers(DefaultAnswers)[i].severity == SeverityOk
  {
  }

  /** What the form reports to the user and to its parent. */
  datatype FormEvent = StorageErrorAlert | SuccessCalled | CloseCalled

  class Form {
    const db: LogTable
    const asset: Asset
    var hours: real
    var answers: FormAnswers
    var photo: Option<PhotoFile>
    var submitting: bool
    var events: seq<FormEvent>

    constructor (db: LogTable, asset: Asset)
      ensures this.db == db && this.asset == asset
      ensures hours == asset.currentHours && answers == DefaultAnswers
      ensures photo.None? && !submitting && events == []
    {
      this.db := db;
      this.asset := asset;
      hours := asset.currentHours;
      answers := DefaultAnswers;
      photo := None;
      submitting := false;
      events := [];
    }

    /** Choosing files keeps the first one, if any was chosen. */
    method HandlePhoto(files: seq<PhotoFile>)
      modifies this`photo
      ensures photo == if |files| > 0 then Some(files[0]) else old(photo)
    {
      if |files| > 0 {
        photo := Some(files[0]);
      }
    }

    /**
     * `handleSubmit`: stores the record built from the form in the local
     * queue. On success it notifies the parent and closes; if the store
     * refuses the record it alerts the user and stays open. The chosen
     * photo is not stored. `newId` and `now` are the random id and the
     * clock reading; `storageOk` says whether the store meets a fault.
     */
    method HandleSubmit(newId: string, now: nat, storageOk: bool)
      requires db.Valid()
      modifies this`submitting, this`events, db
      ensures db.Valid()
      ensures !submitting
      ensures storageOk && newId !in old(db.logs) ==>
                db.logs == old(db.logs)[newId := BuildRecord(asset.id, hours, answers, newId, now)] &&
                events == old(events) + [SuccessCalled, CloseCalled]
      ensures !(storageOk && newId !in old(db.logs)) ==>
                db.logs == old(db.logs) && events == old(events) + [StorageErrorAlert]
    {
      submitting := true;
      var log := BuildRecord(asset.id, hours, answers, newId, now);
      var ok := db.Add(log, storageOk);
      if !ok {
        events := events + [StorageErrorAlert];
        submitting := false;
        return;
      }
      submitting := false;
      events := events + [SuccessCalled, CloseCalled];
    }
  }
}
