/**
 * The records exchanged between the application, its local queue and the
 * remote backend.
 */
module Types {
  import opened Wrappers
  import opened JsValue

  datatype AssetStatus = Active | Warning | Down | Maintenance | Offline

  datatype AssetCategory = HeavyMachinery | IrrigationSystem | Transport

  /** The wire name of a status (`'active'`, `'warning'`, ...). */
  function StatusName(s: AssetStatus): string
  {
    match s
    case Active => "active"
    case Warning => "warning"
    case Down => "down"
    case Maintenance => "maintenance"
    case Offline => "offline"
  }

  /** The wire name of a category. */
  function CategoryName(c: AssetCategory): string
  {
    match c
    case HeavyMachinery => "heavy_machinery"
    case IrrigationSystem => "irrigation_system"
    case Transport => "transport"
  }

  /** A machine of the fleet. */
  datatype Asset = Asset(
    id: string,
    orgId: Option<string>,
    name: string,
    internalId: string,
    category: AssetCategory,
    brand: string,
    model: string,
    currentHours: real,
    status: AssetStatus,
    lastServiceDate: string,
    location: Option<string>,
    operator: Option<string>,
    image: Option<string>)

  datatype AlertSeverity = Low | Medium | High | CriticalAlert

  datatype Alert = Alert(
    id: string,
    assetId: string,
    severity: AlertSeverity,
    description: string,
    isResolved: bool,
    createdAt: string)

  /** The severity of one checklist answer. */
  datatype Severity = SeverityOk | SeverityWarning | SeverityCritical

  function SeverityName(s: Severity): string
  {
    match s
    case SeverityOk => "ok"
    case SeverityWarning => "warning"
    case SeverityCritical => "critical"
  }

  datatype ChecklistAnswer = ChecklistAnswer(
    questionId: string,
    value: string,
    severity: Severity,
    photoUrl: Option<string>,
    notes: Option<string>)

  /** An answer as the object the local store and the backend keep. */
  function AnswerToJson(a: ChecklistAnswer): (r: Json)
    ensures r.JObj?
    ensures Get(r, "severity") == Some(JStr(SeverityName(a.severity)))
  {
    var es := [("questionId", JStr(a.questionId)), ("value", JStr(a.value)), ("severity", JStr(SeverityName(a.severity)))]
              + (if a.photoUrl.Some? then [("photoUrl", JStr(a.photoUrl.value))] else [])
              + (if a.notes.Some? then [("notes", JStr(a.notes.value))] else []);
    assert es[2] == ("severity", JStr(SeverityName(a.severity)));
    assert es[0].0 != "severity" && es[1].0 != "severity";
    JObj(es)
  }

  /** A `File` (a named `Blob`): a photo taken on the device. */
  datatype PhotoFile = PhotoFile(name: string, content: seq<bv8>)

  /**
   * A record of the local queue; `answers` is whatever payload the producer
   * stored (an array of answers, an object, or nothing at all).
   */
  datatype OfflineLog = OfflineLog(
    id: string,
    assetId: string,
    operatorId: Option<string>,
    hoursReading: real,
    answers: Option<Json>,
    gpsLocation: Option<Json>,
    createdAt: nat,
    synced: bool,
    photoBlob: Option<PhotoFile>)

  /** A maintenance log without the two fields the backend assigns. */
  datatype LogEntry = LogEntry(
    assetId: string,
    operatorId: Option<string>,
    hoursReading: real,
    answers: Option<Json>,
    photoUrl: Option<string>,
    gpsLocation: Option<Json>)

  /** A maintenance log as stored remotely. */
  datatype MaintenanceLog = MaintenanceLog(
    id: string,
    assetId: string,
    operatorId: Option<string>,
    hoursReading: real,
    answers: Option<Json>,
    photoUrl: Option<string>,
    gpsLocation: Option<Json>,
    createdAt: string)
}
