/**
 * The data service: validation and normalisation of a log before it is
 * inserted remotely, photo upload, the immediate-or-queue submission of a
 * new log, and the routine that drains the local queue.
 */
module Service {
  import opened Wrappers
  import opened JsValue
  import JsString
  import opened Types
  import opened OfflineDb
  import opened Backend

  // ---------------------------------------------------------------------
  // The UUID check of submitLog: /^[0-9a-f]{8}-[0-9a-f]{4}-[0-9a-f]{4}-
  // [0-9a-f]{4}-[0-9a-f]{12}$/i applied to `id || ''`.
  // ---------------------------------------------------------------------

  /** `[0-9a-f]` under the case-insensitive flag. */
  predicate IsHexDigit(c: char)
  {
    ('0' <= c <= '9') || ('a' <= c <= 'f') || ('A' <= c <= 'F')
  }

  predicate AllHex(s: string)
  {
    forall i :: 0 <= i < |s| ==> IsHexDigit(s[i])
  }

  /** The widths of the five hexadecimal groups. */
  const UuidGroups: seq<nat> := [8, 4, 4, 4, 12]

  /** `s` is groups of hex digits of the widths `gs`, joined by '-', and nothing else. */
  predicate MatchesGroups(s: string, gs: seq<nat>)
    requires |gs| > 0
    decreases |gs|
  {
    gs[0] <= |s| && AllHex(s[..gs[0]]) &&
    if |gs| == 1 then |s| == gs[0]
    else gs[0] < |s| && s[gs[0]] == '-' && MatchesGroups(s[gs[0] + 1..], gs[1..])
  }

  /** `isValidUUID(id)`: an absent id is tested as the empty string. */
  predicate IsValidUuid(id: Option<string>)
  {
    MatchesGroups(if id.Some? then id.value else "", UuidGroups)
  }

  /** The positions of the four dashes of a UUID. */
  predicate IsUuidDash(i: int)
  {
    i == 8 || i == 13 || i == 18 || i == 23
  }

  /** Reference shape: 36 characters, dashes at 8, 13, 18, 23, hex digits elsewhere. */
  predicate UuidShaped(s: string)
  {
    |s| == 36 && forall i :: 0 <= i < 36 ==> if IsUuidDash(i) then s[i] == '-' else IsHexDigit(s[i])
  }

  /** The length of a string made of groups `gs` and their separators. */
  function GroupsLength(gs: seq<nat>): nat
    requires |gs| > 0
    decreases |gs|
  {
    if |gs| == 1 then gs[0] else gs[0] + 1 + GroupsLength(gs[1..])
  }

  /** Position `i` holds a separator between two of the groups `gs`. */
  predicate IsSeparatorAt(gs: seq<nat>, i: int)
    requires |gs| > 0
    decreases |gs|
  {
    |gs| > 1 && (i == gs[0] || (i > gs[0] && IsSeparatorAt(gs[1..], i - gs[0] - 1)))
  }

  /** Positional description of the strings `MatchesGroups` accepts. */
  predicate GroupShaped(s: string, gs: seq<nat>)
    requires |gs| > 0
  {
    |s| == GroupsLength(gs) &&
    forall i :: 0 <= i < |s| ==> if IsSeparatorAt(gs, i) then s[i] == '-' else IsHexDigit(s[i])
  }

  lemma {:induction false} MatchesGroupsShape(s: string, gs: seq<nat>)
    requires |gs| > 0
    ensures MatchesGroups(s, gs) <==> GroupShaped(s, gs)
    decreases |gs|
  {
    var n := gs[0];
    if |gs| == 1 {
      if |s| == n {
        assert s[..n] == s;
      }
    } else if n < |s| {
      var t := s[n + 1..];
      MatchesGroupsShape(t, gs[1..]);
      assert IsSeparatorAt(gs, n);
      assert forall i :: 0 <= i < n ==> !IsSeparatorAt(gs, i);
      assert forall i :: n < i < |s| ==> (IsSeparatorAt(gs, i) <==> IsSeparatorAt(gs[1..], i - n - 1));
      assert forall i :: n < i < |s| ==> s[i] == t[i - n - 1];
      if GroupShaped(s, gs) {
        assert AllHex(s[..n]) by {
          forall i | 0 <= i < n ensures IsHexDigit(s[..n][i]) {
            assert s[..n][i] == s[i];
          }
        }
        assert GroupShaped(t, gs[1..]) by {
          forall j | 0 <= j < |t|
            ensures if IsSeparatorAt(gs[1..], j) then t[j] == '-' else IsHexDigit(t[j])
          {
            assert t[j] == s[j + n + 1];
          }
        }
      }
      if MatchesGroups(s, gs) {
        forall i | 0 <= i < |s|
          ensures if IsSeparatorAt(gs, i) then s[i] == '-' else IsHexDigit(s[i])
        {
          if i < n {
            assert s[i] == s[..n][i];
          }
        }
      }
    }
  }

  lemma UuidGroupsShape()
    ensures GroupsLength(UuidGroups) == 36
    ensures forall i :: IsSeparatorAt(UuidGroups, i) <==> IsUuidDash(i)
  {
    var g := UuidGroups;
    assert g[1..] == [4, 4, 4, 12];
    assert g[1..][1..] == [4, 4, 12];
    assert g[1..][1..][1..] == [4, 12];
    assert g[1..][1..][1..][1..] == [12];
  }

  /** The regex accepts exactly the strings of the UUID shape; an absent id is never valid. */
  lemma IsValidUuidIff(id: Option<string>)
    ensures IsValidUuid(id) <==> id.Some? && UuidShaped(id.value)
  {
    var s := if id.Some? then id.value else "";
    MatchesGroupsShape(s, UuidGroups);
    UuidGroupsShape();
  }

  // ---------------------------------------------------------------------
  // Payloads
  // ---------------------------------------------------------------------

  /**
   * The row `submitLog` builds: the asset id only if it is a UUID, the
   * operator id or `null`, the coordinates out of `gpsLocation?.lat/lng`.
   * The photo URL is not part of it.
   */
  function BuildDbPayload(e: LogEntry): (p: DbPayload)
    ensures p.asset_id.Some? <==> UuidShaped(e.assetId)
    ensures p.asset_id.Some? ==> p.asset_id.value == e.assetId
    ensures p.operator_id.Some? <==> e.operatorId.Some? && UuidShaped(e.operatorId.value)
    ensures p.operator_id.Some? ==> p.operator_id == e.operatorId
    ensures p.hours_reading == e.hoursReading && p.answers == e.answers
    ensures p.gps_lat == GetOpt(e.gpsLocation, "lat") && p.gps_lng == GetOpt(e.gpsLocation, "lng")
  {
    IsValidUuidIff(Some(e.assetId));
    IsValidUuidIff(e.operatorId);
    DbPayload(
      if IsValidUuid(Some(e.assetId)) then Some(e.assetId) else None,
      if IsValidUuid(e.operatorId) then e.operatorId else None,
      e.hoursReading,
      e.answers,
      GetOpt(e.gpsLocation, "lat"),
      GetOpt(e.gpsLocation, "lng"))
  }

  /** The asset id decides acceptance; the operator id never does. */
  lemma {:induction false} PayloadAcceptance(e: LogEntry, operator: Option<string>)
    ensures BuildDbPayload(e).asset_id.Some? <==> IsValidUuid(Some(e.assetId))
    ensures BuildDbPayload(e).asset_id.Some? ==> BuildDbPayload(e).asset_id.value != ""
    ensures BuildDbPayload(e).asset_id == BuildDbPayload(e.(operatorId := operator)).asset_id
    ensures BuildDbPayload(e).operator_id.Some? ==> IsValidUuid(e.operatorId) && BuildDbPayload(e).operator_id == e.operatorId
  {
    IsValidUuidIff(Some(e.assetId));
  }

  /** The fields of an asset update (`Partial<Asset>`); absent ones are `None`. */
  datatype AssetUpdate = AssetUpdate(
    name: Option<string>,
    internalId: Option<string>,
    category: Option<AssetCategory>,
    brand: Option<string>,
    model: Option<string>,
    location: Option<string>,
    currentHours: Option<real>,
    status: Option<AssetStatus>)

  /** A present, non-empty string: what `if (updates.x)` lets through. */
  function TruthyText(s: Option<string>): Option<Json>
  {
    if s.Some? && s.value != "" then Some(JStr(s.value)) else None
  }

  /** The columns of the `assets` table an update may touch. */
  datatype Column = NameCol | InternalIdCol | CategoryCol | BrandCol | ModelCol | LocationCol | CurrentHoursCol | StatusCol

  /** The column's name in the payload. */
  function ColumnKey(c: Column): string
  {
    match c
    case NameCol => "name"
    case InternalIdCol => "internal_id"
    case CategoryCol => "category"
    case BrandCol => "brand"
    case ModelCol => "model"
    case LocationCol => "location"
    case CurrentHoursCol => "current_hours"
    case StatusCol => "status"
  }

  /** The column a payload key names, if any. */
  function ColumnOf(key: string): Option<Column>
  {
    if key == "name" then Some(NameCol)
    else if key == "internal_id" then Some(InternalIdCol)
    else if key == "category" then Some(CategoryCol)
    else if key == "brand" then Some(BrandCol)
    else if key == "model" then Some(ModelCol)
    else if key == "location" then Some(LocationCol)
    else if key == "current_hours" then Some(CurrentHoursCol)
    else if key == "status" then Some(StatusCol)
    else None
  }

  /** Every column has its own key. */
  lemma ColumnOfKey(c: Column)
    ensures ColumnOf(ColumnKey(c)) == Some(c)
  {
  }

  /** Reference: the value column `c` takes in the update payload, if it is sent. */
  function ColumnValue(u: AssetUpdate, c: Column): Option<Json>
  {
    match c
    case NameCol => TruthyText(u.name)
    case InternalIdCol => TruthyText(u.internalId)
    case CategoryCol => if u.category.Some? then Some(JStr(CategoryName(u.category.value))) else None
    case BrandCol => TruthyText(u.brand)
    case ModelCol => TruthyText(u.model)
    case LocationCol => TruthyText(u.location)
    case CurrentHoursCol => if u.currentHours.Some? then Some(JNum(u.currentHours.value)) else None
    case StatusCol => if u.status.Some? then Some(JStr(StatusName(u.status.value))) else None
  }

  predicate DistinctKeys(p: seq<(string, Json)>)
  {
    forall i, j :: 0 <= i < j < |p| ==> p[i].0 != p[j].0
  }

  /** The position of each column in the order `updateAsset` considers them. */
  function ColumnIndex(c: Column): (r: nat)
    ensures r < 8
  {
    match c
    case NameCol => 0
    case InternalIdCol => 1
    case CategoryCol => 2
    case BrandCol => 3
    case ModelCol => 4
    case LocationCol => 5
    case CurrentHoursCol => 6
    case StatusCol => 7
  }

  /** The column at position `k`. */
  function ColumnAt(k: nat): (c: Column)
    requires k < 8
    ensures ColumnIndex(c) == k
  {
    if k == 0 then NameCol
    else if k == 1 then InternalIdCol
    else if k == 2 then CategoryCol
    else if k == 3 then BrandCol
    else if k == 4 then ModelCol
    else if k == 5 then LocationCol
    else if k == 6 then CurrentHoursCol
    else StatusCol
  }

  /** The entry column `c` contributes to the payload, if any. */
  function Piece(u: AssetUpdate, c: Column): seq<(string, Json)>
  {
    if ColumnValue(u, c).Some? then [(ColumnKey(c), ColumnValue(u, c).value)] else []
  }

  /** The payload once the first `k` columns have been considered. */
  function Pieces(u: AssetUpdate, k: nat): seq<(string, Json)>
    requires k <= 8
  {
    if k == 0 then [] else Pieces(u, k - 1) + Piece(u, ColumnAt(k - 1))
  }

  /** Every key of `p` names one of the first `k` columns. */
  predicate KeysWithin(p: seq<(string, Json)>, k: nat)
  {
    forall i :: 0 <= i < |p| ==> ColumnOf(p[i].0).Some? && ColumnIndex(ColumnOf(p[i].0).value) < k
  }

  /**
   * `p` is a payload built from the first `k` columns: no key twice, every
   * key one of those columns, and each of them carrying the update's value.
   */
  predicate PayloadCovers(u: AssetUpdate, p: seq<(string, Json)>, k: nat)
  {
    DistinctKeys(p) && KeysWithin(p, k) &&
    (forall j :: 0 <= j < 8 ==> Lookup(p, ColumnKey(ColumnAt(j))) == if j < k then ColumnValue(u, ColumnAt(j)) else None)
  }

  /** Considering column `k` after the first `k` keeps the payload faithful to the update. */
  lemma PieceStep(u: AssetUpdate, k: nat)
    requires k < 8 && PayloadCovers(u, Pieces(u, k), k)
    ensures PayloadCovers(u, Pieces(u, k + 1), k + 1)
  {
    PieceStepLookups(u, k);
    PieceStepColumns(u, k);
    PieceStepDistinct(u, k);
  }

  /** After column `k`, every column up to `k` maps to the update's value and the rest to nothing. */
  lemma PieceStepLookups(u: AssetUpdate, k: nat)
    requires k < 8 && PayloadCovers(u, Pieces(u, k), k)
    ensures forall j :: 0 <= j < 8 ==> Lookup(Pieces(u, k + 1), ColumnKey(ColumnAt(j))) == if j < k + 1 then ColumnValue(u, ColumnAt(j)) else None
  {
    var p := Pieces(u, k);
    var c := ColumnAt(k);
    var q := Pieces(u, k + 1);
    assert q == p + Piece(u, c);
    ColumnOfKey(c);
    forall j | 0 <= j < 8
      ensures Lookup(q, ColumnKey(ColumnAt(j))) == if j < k + 1 then ColumnValue(u, ColumnAt(j)) else None
    {
      LookupAppend(p, Piece(u, c), ColumnKey(ColumnAt(j)));
      ColumnOfKey(ColumnAt(j));
    }
  }

  /** After column `k`, every key of the payload names one of the first `k + 1` columns. */
  lemma PieceStepColumns(u: AssetUpdate, k: nat)
    requires k < 8 && PayloadCovers(u, Pieces(u, k), k)
    ensures KeysWithin(Pieces(u, k + 1), k + 1)
  {
    var p := Pieces(u, k);
    var c := ColumnAt(k);
    var q := Pieces(u, k + 1);
    assert q == p + Piece(u, c);
    ColumnOfKey(c);
    forall i | 0 <= i < |q| ensures ColumnOf(q[i].0).Some? && ColumnIndex(ColumnOf(q[i].0).value) < k + 1 {
      if i < |p| {
        assert q[i] == p[i];
      }
    }
  }

  /** After column `k`, the payload still has no key twice. */
  lemma PieceStepDistinct(u: AssetUpdate, k: nat)
    requires k < 8 && PayloadCovers(u, Pieces(u, k), k)
    ensures DistinctKeys(Pieces(u, k + 1))
  {
    var p := Pieces(u, k);
    var c := ColumnAt(k);
    var q := Pieces(u, k + 1);
    assert q == p + Piece(u, c);
    ColumnOfKey(c);
    forall i, j | 0 <= i < j < |q| ensures q[i].0 != q[j].0 {
      if j >= |p| {
        assert q[i] == p[i];
      } else {
        assert q[i] == p[i] && q[j] == p[j];
      }
    }
  }

  /** The payload built from the first `k` columns is faithful to the update. */
  lemma {:induction false} PiecesCover(u: AssetUpdate, k: nat)
    requires k <= 8
    ensures PayloadCovers(u, Pieces(u, k), k)
  {
    if k > 0 {
      PiecesCover(u, k - 1);
      PieceStep(u, k - 1);
    }
  }

  /** All eight columns considered: the payload holds exactly the columns the update sets. */
  lemma AllPiecesCover(u: AssetUpdate)
    ensures DistinctKeys(Pieces(u, 8))
    ensures forall i :: 0 <= i < |Pieces(u, 8)| ==> ColumnOf(Pieces(u, 8)[i].0).Some?
    ensures forall c :: Lookup(Pieces(u, 8), ColumnKey(c)) == ColumnValue(u, c)
  {
    PiecesCover(u, 8);
    forall c ensures Lookup(Pieces(u, 8), ColumnKey(c)) == ColumnValue(u, c) {
      assert ColumnAt(ColumnIndex(c)) == c;
    }
  }

  /**
   * The payload of `updateAsset`: each text column when the update gives a
   * non-empty value, `current_hours` whenever it is given, `status` and
   * `category` when given; nothing else.
   */
  function UpdatePayload(u: AssetUpdate): (payload: seq<(string, Json)>)
    ensures DistinctKeys(payload)
    ensures forall i :: 0 <= i < |payload| ==> ColumnOf(payload[i].0).Some?
    ensures forall c :: Lookup(payload, ColumnKey(c)) == ColumnValue(u, c)
  {
    AllPiecesCover(u);
    Pieces(u, 8)
  }

  /** A reading of zero hours is still sent, but an empty name is not. */
  lemma UpdatePayloadFalsyValues(u: AssetUpdate)
    requires u.currentHours == Some(0.0) && u.name == Some("")
    ensures Lookup(UpdatePayload(u), "current_hours") == Some(JNum(0.0))
    ensures Lookup(UpdatePayload(u), "name") == None
  {
    assert ColumnKey(CurrentHoursCol) == "current_hours";
    assert ColumnKey(NameCol) == "name";
  }


  // ---------------------------------------------------------------------
  // Photo naming
  // ---------------------------------------------------------------------

  /** `[a-z0-9.]` under the case-insensitive flag. */
  predicate IsFileNameChar(c: char)
  {
    ('a' <= c <= 'z') || ('A' <= c <= 'Z') || ('0' <= c <= '9') || c == '.'
  }

  /** `name.replace(/[^a-z0-9.]/gi, '_')`. */
  function SanitizeFileName(name: string): (r: string)
    ensures |r| == |name|
    ensures forall i :: 0 <= i < |r| ==> r[i] == (if IsFileNameChar(name[i]) then name[i] else '_')
  {
    if name == [] then []
    else [if IsFileNameChar(name[0]) then name[0] else '_'] + SanitizeFileName(name[1..])
  }

  /** A sanitised name holds only letters, digits, dots and underscores. */
  lemma SanitizedIsSafe(name: string)
    ensures forall i :: 0 <= i < |SanitizeFileName(name)| ==>
      IsFileNameChar(SanitizeFileName(name)[i]) || SanitizeFileName(name)[i] == '_'
  {
  }

  /** Sanitising twice is sanitising once. */
  lemma SanitizeIdempotent(name: string)
    ensures SanitizeFileName(SanitizeFileName(name)) == SanitizeFileName(name)
  {
  }

  /** A name made of allowed characters is kept as it is. */
  lemma SanitizeKeepsSafeNames(name: string)
    requires forall i :: 0 <= i < |name| ==> IsFileNameChar(name[i])
    ensures SanitizeFileName(name) == name
  {
  }

  /** The object path `${folder}/${Date.now()}_${sanitised name}`. */
  function PhotoPath(folder: string, now: nat, name: string): (r: string)
    ensures |r| == |folder| + |JsString.NatToString(now)| + |name| + 2
  {
    folder + "/" + JsString.NatToString(now) + "_" + SanitizeFileName(name)
  }

  /** Whatever the file is called, the object lands directly inside `folder`. */
  lemma {:induction false} PhotoPathInFolder(folder: string, now: nat, name: string)
    ensures var r := PhotoPath(folder, now, name);
            r[..|folder| + 1] == folder + "/" && '/' !in r[|folder| + 1..]
  {
    var ts := JsString.NatToString(now);
    var sn := SanitizeFileName(name);
    var rest := ts + "_" + sn;
    TimestampHasNoSlash(now);
    SanitizedHasNoSlash(name);
    NoSlashConcat(ts, "_");
    NoSlashConcat(ts + "_", sn);
    PrefixAndRest(folder + "/", rest);
  }

  /** No character of `s` is a `/`. */
  predicate NoSlash(s: string)
  {
    forall i :: 0 <= i < |s| ==> s[i] != '/'
  }

  lemma TimestampHasNoSlash(now: nat)
    ensures NoSlash(JsString.NatToString(now))
  {
    var ts := JsString.NatToString(now);
    forall i | 0 <= i < |ts| ensures ts[i] != '/' {
      assert JsString.IsDigit(ts[i]);
    }
  }

  lemma SanitizedHasNoSlash(name: string)
    ensures NoSlash(SanitizeFileName(name))
  {
    var sn := SanitizeFileName(name);
    forall i | 0 <= i < |sn| ensures sn[i] != '/' {
      assert sn[i] == (if IsFileNameChar(name[i]) then name[i] else '_');
    }
  }

  lemma NoSlashConcat(a: string, b: string)
    requires NoSlash(a) && NoSlash(b)
    ensures NoSlash(a + b)
  {
    forall i | 0 <= i < |a + b| ensures (a + b)[i] != '/' {
      if i >= |a| {
        assert (a + b)[i] == b[i - |a|];
      }
    }
  }

  /** The path is the folder prefix followed by a part without `/`. */
  lemma PrefixAndRest(prefix: string, rest: string)
    requires NoSlash(rest)
    ensures (prefix + rest)[..|prefix|] == prefix && '/' !in (prefix + rest)[|prefix|..]
  {
    assert (prefix + rest)[..|prefix|] == prefix;
    assert (prefix + rest)[|prefix|..] == rest;
  }

  /**
   * Photos uploaded to the same folder at different milliseconds get
   * different paths, whatever they are called: the timestamp ends at the
   * first `_` after the folder.
   */
  lemma PhotoPathsDistinct(folder: string, t1: nat, n1: string, t2: nat, n2: string)
    requires t1 != t2
    ensures PhotoPath(folder, t1, n1) != PhotoPath(folder, t2, n2)
  {
    var d1, d2 := JsString.NatToString(t1), JsString.NatToString(t2);
    var u1 := d1 + "_" + SanitizeFileName(n1);
    var u2 := d2 + "_" + SanitizeFileName(n2);
    assert PhotoPath(folder, t1, n1) == (folder + "/") + u1;
    assert PhotoPath(folder, t2, n2) == (folder + "/") + u2;
    var k: nat;
    if |d1| == |d2| {
      JsString.NatToStringDistinct(t1, t2);
      assert exists i :: 0 <= i < |d1| && d1[i] != d2[i];
      k :| k < |d1| && d1[k] != d2[k];
      assert u1[k] == d1[k] && u2[k] == d2[k];
    } else if |d1| < |d2| {
      k := |d1|;
      assert u1[k] == '_' && u2[k] == d2[k] && JsString.IsDigit(d2[k]);
    } else {
      k := |d2|;
      assert u2[k] == '_' && u1[k] == d1[k] && JsString.IsDigit(d1[k]);
    }
    assert PhotoPath(folder, t1, n1)[|folder| + 1 + k] == u1[k] != u2[k] == PhotoPath(folder, t2, n2)[|folder| + 1 + k];
  }

  /** The file a queued photo blob is re-wrapped in before upload. */
  function OfflinePhotoFile(log: OfflineLog): PhotoFile
    requires log.photoBlob.Some?
  {
    PhotoFile("offline_photo_" + log.id + ".jpg", log.photoBlob.value.content)
  }

  // ---------------------------------------------------------------------
  // Synchronisation of the queue: specification
  // ---------------------------------------------------------------------

  /** What the environment answers when record `id` is attempted in a run. */
  datatype Attempt = Attempt(
    uploadNow: nat,        // Date.now() at the upload
    upload: UploadReply,   // the storage service's answer
    insert: InsertReply,   // the server's answer to the insert
    deleteOk: bool)        // the local delete succeeds

  datatype Error = InvalidAssetId | RemoteError | StorageFault

  /** The entry a queued record is resubmitted as: no operator id. */
  function SyncEntry(log: OfflineLog, photoUrl: Option<string>): LogEntry
  {
    LogEntry(log.assetId, None, log.hoursReading, log.answers, photoUrl, log.gpsLocation)
  }

  /** The resubmission of `log` succeeds (whatever became of its photo). */
  predicate Delivered(log: OfflineLog, a: Attempt)
  {
    IsValidUuid(Some(log.assetId)) && a.insert.Stored?
  }

  /** `log` is delivered and then deleted from the queue. */
  predicate Removes(log: OfflineLog, a: Attempt)
  {
    Delivered(log, a) && a.deleteOk
  }

  /** The ids among `done` whose records a run removes. */
  function RemovedAmong(snap: map<string, OfflineLog>, done: set<string>, net: string -> Attempt): set<string>
  {
    set id | id in done && id in snap && Removes(snap[id], net(id))
  }

  /** The ids a full run over `snap` removes. */
  function Removed(snap: map<string, OfflineLog>, net: string -> Attempt): (r: set<string>)
    ensures r <= snap.Keys
  {
    RemovedAmong(snap, snap.Keys, net)
  }

  /** `order` lists each key of `keys` exactly once. */
  predicate IsOrdering(order: seq<string>, keys: set<string>)
  {
    (forall i, j :: 0 <= i < j < |order| ==> order[i] != order[j]) &&
    (forall i :: 0 <= i < |order| ==> order[i] in keys) &&
    (forall k :: k in keys ==> k in order)
  }

  /** The row the resubmission of `log` inserts, if it is delivered. */
  function SyncRow(log: OfflineLog, a: Attempt): seq<DbPayload>
  {
    if Delivered(log, a) then [BuildDbPayload(SyncEntry(log, None))] else []
  }

  /** The rows a run processing `order` inserts remotely, in order. */
  function InsertedRows(snap: map<string, OfflineLog>, order: seq<string>, net: string -> Attempt): seq<DbPayload>
    decreases |order|
  {
    if order == [] then []
    else
      var id := order[|order| - 1];
      InsertedRows(snap, order[..|order| - 1], net) + (if id in snap then SyncRow(snap[id], net(id)) else [])
  }

  /** The bucket after attempting the photo of `log`, if it has one. */
  function PhotoStep(photos: map<string, seq<bv8>>, log: OfflineLog, a: Attempt): map<string, seq<bv8>>
  {
    if log.photoBlob.Some? then
      var f := OfflinePhotoFile(log);
      UploadStep(photos, PhotoPath(log.assetId, a.uploadNow, f.name), f.content, a.upload)
    else photos
  }

  /** The bucket after a run processing `order`. */
  function PhotosAfter(photos: map<string, seq<bv8>>, snap: map<string, OfflineLog>, order: seq<string>, net: string -> Attempt): map<string, seq<bv8>>
    decreases |order|
  {
    if order == [] then photos
    else
      var id := order[|order| - 1];
      var before := PhotosAfter(photos, snap, order[..|order| - 1], net);
      if id in snap then PhotoStep(before, snap[id], net(id)) else before
  }

  // ---------------------------------------------------------------------
  // Synchronisation of the queue: properties
  // ---------------------------------------------------------------------

  lemma {:induction false} SubsetCardinality<T>(a: set<T>, b: set<T>)
    requires a <= b
    ensures |a| <= |b|
    decreases |a|
  {
    if a != {} {
      var x :| x in a;
      SubsetCardinality(a - {x}, b - {x});
    }
  }

  /** A run removes only records that were delivered, and never more than it saw. */
  lemma RemovedAreDelivered(snap: map<string, OfflineLog>, net: string -> Attempt)
    ensures forall id :: id in Removed(snap, net) ==> Delivered(snap[id], net(id))
    ensures |Removed(snap, net)| <= |snap|
  {
    SubsetCardinality(Removed(snap, net), snap.Keys);
    assert |snap.Keys| == |snap|;
  }

  /** A record whose submission or deletion fails stays queued, unchanged. */
  lemma FailedRecordRetained(logs: map<string, OfflineLog>, net: string -> Attempt, id: string)
    requires id in Pending(logs) && !Removes(logs[id], net(id))
    ensures id in logs - Removed(Pending(logs), net)
    ensures (logs - Removed(Pending(logs), net))[id] == logs[id]
  {
  }

  /**
   * The photo upload's outcome never decides whether a record is delivered,
   * removed, or what row it inserts: a failed upload blocks nothing.
   */
  lemma PhotoFailureDoesNotBlock(log: OfflineLog, a: Attempt, u: UploadReply)
    ensures Delivered(log, a) == Delivered(log, a.(upload := u))
    ensures Removes(log, a) == Removes(log, a.(upload := u))
    ensures SyncRow(log, a) == SyncRow(log, a.(upload := u))
  {
  }

  /** A record whose asset id is not a UUID is never delivered, so never removed. */
  lemma InvalidAssetIdNeverLeaves(logs: map<string, OfflineLog>, net: string -> Attempt, id: string)
    requires id in Pending(logs) && !UuidShaped(logs[id].assetId)
    ensures id in logs - Removed(Pending(logs), net)
  {
    IsValidUuidIff(Some(logs[id].assetId));
  }

  /** When every pending record is delivered and deleted, nothing is left pending. */
  lemma {:induction false} DrainEmptiesQueue(logs: map<string, OfflineLog>, net: string -> Attempt)
    requires forall id :: id in Pending(logs) ==> Removes(logs[id], net(id))
    ensures Pending(logs - Removed(Pending(logs), net)) == map[]
  {
    var after := logs - Removed(Pending(logs), net);
    forall id | id in after ensures after[id].synced {
      assert id in logs && after[id] == logs[id];
    }
  }

  /** The ids among `order` whose records a run delivers. */
  function DeliveredIn(snap: map<string, OfflineLog>, order: seq<string>, net: string -> Attempt): set<string>
  {
    set id | id in order && id in snap && Delivered(snap[id], net(id))
  }

  /** Extending the visited ids by one adds at most that id to the delivered ones. */
  lemma DeliveredInSnoc(snap: map<string, OfflineLog>, front: seq<string>, id: string, net: string -> Attempt)
    ensures DeliveredIn(snap, front + [id], net) ==
            DeliveredIn(snap, front, net) + (if id in snap && Delivered(snap[id], net(id)) then {id} else {})
  {
    assert forall x :: x in front + [id] <==> x in front || x == id;
  }

  /** The rows inserted by a run are those of the delivered records, one each. */
  lemma {:induction false} InsertedRowsCount(snap: map<string, OfflineLog>, order: seq<string>, net: string -> Attempt)
    requires forall i, j :: 0 <= i < j < |order| ==> order[i] != order[j]
    ensures |InsertedRows(snap, order, net)| == |DeliveredIn(snap, order, net)|
    decreases |order|
  {
    if order != [] {
      var id := order[|order| - 1];
      var front := order[..|order| - 1];
      assert order == front + [id];
      assert forall i, j :: 0 <= i < j < |front| ==> front[i] != front[j] by {
        forall i, j | 0 <= i < j < |front| ensures front[i] != front[j] {
          assert front[i] == order[i] && front[j] == order[j];
        }
      }
      InsertedRowsCount(snap, front, net);
      assert id !in front by {
        forall k | 0 <= k < |front| ensures front[k] != id {
          assert front[k] == order[k];
        }
      }
      DeliveredInSnoc(snap, front, id, net);
      assert id !in DeliveredIn(snap, front, net);
    }
  }

  lemma RemovedAmongStep(snap: map<string, OfflineLog>, done: set<string>, id: string, net: string -> Attempt)
    requires id !in done
    ensures id !in RemovedAmong(snap, done, net)
    ensures RemovedAmong(snap, done + {id}, net) ==
            RemovedAmong(snap, done, net) + (if id in snap && Removes(snap[id], net(id)) then {id} else {})
  {
  }

  lemma MapMinusStep<K, V>(m: map<K, V>, r: set<K>, k: K)
    ensures m - (r + {k}) == (m - r) - {k}
  {
  }

  lemma OrderingStep(order: seq<string>, done: set<string>, id: string)
    requires IsOrdering(order, done) && id !in done
    ensures IsOrdering(order + [id], done + {id})
  {
    var o := order + [id];
    forall i, j | 0 <= i < j < |o| ensures o[i] != o[j] {
      assert o[i] == order[i];
      if j < |order| {
        assert o[j] == order[j];
      }
    }
    forall k | k in done + {id} ensures k in o {
      if k != id {
        var i :| 0 <= i < |order| && order[i] == k;
        assert o[i] == k;
      }
    }
  }

  /** One more record processed extends the inserted rows and the bucket by its own step. */
  lemma RunStep(photos: map<string, seq<bv8>>, snap: map<string, OfflineLog>, order: seq<string>, id: string, net: string -> Attempt)
    requires id in snap
    ensures InsertedRows(snap, order + [id], net) == InsertedRows(snap, order, net) + SyncRow(snap[id], net(id))
    ensures PhotosAfter(photos, snap, order + [id], net) == PhotoStep(PhotosAfter(photos, snap, order, net), snap[id], net(id))
  {
    assert (order + [id])[..|order|] == order;
  }

  /**
   * The state of a run over `snap` once the records outside `todo` have been
   * processed in `order`: exactly the removed ones are gone from the queue,
   * `count` counts them, and the remote side has seen their steps in order.
   */
  ghost predicate DrainInvariant(snap: map<string, OfflineLog>, net: string -> Attempt, todo: set<string>,
                                 order: seq<string>, count: nat,
                                 logs0: map<string, OfflineLog>, logs: map<string, OfflineLog>,
                                 rows0: seq<DbPayload>, rows: seq<DbPayload>,
                                 photos0: map<string, seq<bv8>>, photos: map<string, seq<bv8>>)
  {
    todo <= snap.Keys &&
    IsOrdering(order, snap.Keys - todo) &&
    logs == logs0 - RemovedAmong(snap, snap.Keys - todo, net) &&
    count == |RemovedAmong(snap, snap.Keys - todo, net)| &&
    rows == rows0 + InsertedRows(snap, order, net) &&
    photos == PhotosAfter(photos0, snap, order, net)
  }

  lemma DrainInvariantStep(snap: map<string, OfflineLog>, net: string -> Attempt, todo: set<string>,
                           order: seq<string>, count: nat,
                           logs0: map<string, OfflineLog>, logs: map<string, OfflineLog>,
                           rows0: seq<DbPayload>, rows: seq<DbPayload>,
                           photos0: map<string, seq<bv8>>, photos: map<string, seq<bv8>>, id: string)
    requires DrainInvariant(snap, net, todo, order, count, logs0, logs, rows0, rows, photos0, photos)
    requires id in todo
    ensures DrainInvariant(snap, net, todo - {id}, order + [id],
                           if Removes(snap[id], net(id)) then count + 1 else count,
                           logs0, if Removes(snap[id], net(id)) then logs - {id} else logs,
                           rows0, rows + SyncRow(snap[id], net(id)),
                           photos0, PhotoStep(photos, snap[id], net(id)))
  {
    var done := snap.Keys - todo;
    assert snap.Keys - (todo - {id}) == done + {id};
    OrderingStep(order, done, id);
    QueueStep(snap, net, done, id, logs0, logs, count);
    RemoteStep(snap, net, order, id, rows0, rows, photos0, photos);
  }

  lemma QueueStep(snap: map<string, OfflineLog>, net: string -> Attempt, done: set<string>, id: string,
                  logs0: map<string, OfflineLog>, logs: map<string, OfflineLog>, count: nat)
    requires id !in done
    requires logs == logs0 - RemovedAmong(snap, done, net) && count == |RemovedAmong(snap, done, net)|
    ensures (if id in snap && Removes(snap[id], net(id)) then logs - {id} else logs) ==
            logs0 - RemovedAmong(snap, done + {id}, net)
    ensures (if id in snap && Removes(snap[id], net(id)) then count + 1 else count) ==
            |RemovedAmong(snap, done + {id}, net)|
  {
    RemovedAmongStep(snap, done, id, net);
    MapMinusStep(logs0, RemovedAmong(snap, done, net), id);
  }

  lemma RemoteStep(snap: map<string, OfflineLog>, net: string -> Attempt, order: seq<string>, id: string,
                   rows0: seq<DbPayload>, rows: seq<DbPayload>,
                   photos0: map<string, seq<bv8>>, photos: map<string, seq<bv8>>)
    requires id in snap
    requires rows == rows0 + InsertedRows(snap, order, net) && photos == PhotosAfter(photos0, snap, order, net)
    ensures rows + SyncRow(snap[id], net(id)) == rows0 + InsertedRows(snap, order + [id], net)
    ensures PhotoStep(photos, snap[id], net(id)) == PhotosAfter(photos0, snap, order + [id], net)
  {
    RunStep(photos0, snap, order, id, net);
    assert rows + SyncRow(snap[id], net(id)) == rows0 + (InsertedRows(snap, order, net) + SyncRow(snap[id], net(id)));
  }

  // ---------------------------------------------------------------------
  // The service
  // ---------------------------------------------------------------------

  /** The entry `createLog` submits when online. */
  function OnlineEntry(assetId: string, userId: string, hours: real, data: Option<Json>, gps: Option<Json>, photoUrl: Option<string>): LogEntry
  {
    LogEntry(assetId, Some(userId), hours, data, photoUrl, gps)
  }

  /** The arguments of `createLog`. */
  datatype CreateLogPayload = CreateLogPayload(
    assetId: string,
    logType: string,
    data: Option<Json>,
    location: Option<string>,
    photoFile: Option<PhotoFile>)

  /** Everything `createLog` learns from its environment. */
  datatype CreateEnv = CreateEnv(
    online: bool,                          // navigator.onLine
    horometerValue: real,                  // Number(data.items.horometer)
    parsedLocation: Option<(real, real)>,  // "lat,lng" read as two numbers, None if either is NaN
    user: Option<string>,                  // _getUserContext(): the user's id, None when it throws
    uploadNow: nat,                        // Date.now() at the upload
    upload: UploadReply,
    insert: InsertReply,
    newId: string,                         // crypto.randomUUID()
    now: nat,                              // Date.now() at the fallback
    storageOk: bool)                       // the local add meets no storage fault

  /** The hours reading: the horometer's number when it is truthy, else 0. */
  function HoursReadingOf(data: Option<Json>, horometerValue: real): (r: real)
    ensures GetOpt(data, "items") == None ==> r == 0.0
    ensures TruthyOpt(GetOpt(GetOpt(data, "items"), "horometer")) ==> r == horometerValue
    ensures GetOpt(GetOpt(data, "items"), "horometer") in {None, Some(JNull), Some(JBool(false)), Some(JNum(0.0)), Some(JStr(""))} ==> r == 0.0
  {
    if TruthyOpt(GetOpt(GetOpt(data, "items"), "horometer")) then horometerValue else 0.0
  }

  /** The location: `data.location` when truthy, else the parsed "lat,lng" text. */
  function GpsLocationOf(data: Option<Json>, location: Option<string>, parsed: Option<(real, real)>): (r: Option<Json>)
    ensures TruthyOpt(GetOpt(data, "location")) ==> r == GetOpt(data, "location")
    ensures !TruthyOpt(GetOpt(data, "location")) && (location.None? || location.value == "") ==> r == None
    ensures !TruthyOpt(GetOpt(data, "location")) && location.Some? && location.value != "" ==>
              if parsed.Some? then
                r.Some? && GetOpt(r, "lat") == Some(JNum(parsed.value.0)) && GetOpt(r, "lng") == Some(JNum(parsed.value.1))
              else r == None
  {
    if TruthyOpt(GetOpt(data, "location")) then GetOpt(data, "location")
    else if location.Some? && location.value != "" && parsed.Some? then
      var es := [("lat", JNum(parsed.value.0)), ("lng", JNum(parsed.value.1))];
      assert "lng"[1] != "lat"[1];
      assert Lookup(es, "lng") == Lookup(es[1..], "lng");
      Some(JObj(es))
    else None
  }

  /** The record `createLog` queues when the remote path fails. */
  function QueuedRecord(p: CreateLogPayload, env: CreateEnv): (r: OfflineLog)
    ensures r.id == env.newId && r.assetId == p.assetId && r.operatorId == None
    ensures r.answers == p.data && r.photoBlob == p.photoFile && !r.synced && r.createdAt == env.now
    ensures r.hoursReading == HoursReadingOf(p.data, env.horometerValue)
    ensures r.gpsLocation == GpsLocationOf(p.data, p.location, env.parsedLocation)
  {
    OfflineLog(env.newId, p.assetId, None, HoursReadingOf(p.data, env.horometerValue), p.data,
               GpsLocationOf(p.data, p.location, env.parsedLocation), env.now, false, p.photoFile)
  }

  /** Some step of the remote path of `createLog` throws. */
  predicate RemotePathFails(p: CreateLogPayload, env: CreateEnv)
  {
    !env.online || env.user.None? || !IsValidUuid(Some(p.assetId)) || env.insert.InsertFailed?
  }

  class SentinelService {
    const db: LogTable
    const remote: RemoteStore

    ghost predicate Valid()
      reads this, db
    {
      db.Valid()
    }

    constructor (db: LogTable, remote: RemoteStore)
      requires db.Valid()
      ensures Valid() && this.db == db && this.remote == remote
    {
      this.db := db;
      this.remote := remote;
    }

    /**
     * `submitLog`: throws "Invalid Asset ID" without contacting the server
     * unless the asset id is a UUID; otherwise inserts the row and returns
     * the entry with the server's id and timestamp, or throws the server's error.
     */
    method SubmitLog(e: LogEntry, reply: InsertReply) returns (r: Result<MaintenanceLog, Error>)
      modifies remote
      ensures remote.photos == old(remote.photos)
      ensures !IsValidUuid(Some(e.assetId)) ==> r == Err(InvalidAssetId) && remote.rows == old(remote.rows)
      ensures IsValidUuid(Some(e.assetId)) && reply.InsertFailed? ==>
                r == Err(RemoteError) && remote.rows == old(remote.rows)
      ensures IsValidUuid(Some(e.assetId)) && reply.Stored? ==>
                remote.rows == old(remote.rows) + [BuildDbPayload(e)] &&
                r == Ok(MaintenanceLog(reply.id, e.assetId, e.operatorId, e.hoursReading, e.answers,
                                       e.photoUrl, e.gpsLocation, reply.createdAt))
    {
      var payload := BuildDbPayload(e);
      if payload.asset_id.None? || payload.asset_id.value == "" {
        PayloadAcceptance(e, e.operatorId);
        return Err(InvalidAssetId);
      }
      var ins := remote.Insert(payload, reply);
      if ins.Err? {
        return Err(RemoteError);
      }
      var (id, createdAt) := ins.value;
      r := Ok(MaintenanceLog(id, e.assetId, e.operatorId, e.hoursReading, e.answers,
                             e.photoUrl, e.gpsLocation, createdAt));
    }

    /**
     * `uploadPhoto`: stores the file under `${folder}/${now}_${name}` and
     * returns its public URL, or `null` on any failure; it never throws.
     */
    method UploadPhoto(file: PhotoFile, folder: string, now: nat, reply: UploadReply) returns (url: Option<string>)
      modifies remote
      ensures remote.rows == old(remote.rows)
      ensures remote.photos == UploadStep(old(remote.photos), PhotoPath(folder, now, file.name), file.content, reply)
      ensures url.Some? <==> reply.UploadAccepted? && PhotoPath(folder, now, file.name) !in old(remote.photos)
      ensures url.Some? ==> url.value == remote.PublicUrl(PhotoPath(folder, now, file.name))
    {
      var path := PhotoPath(folder, now, file.name);
      var ok := remote.Upload(path, file.content, reply);
      url := if ok then Some(remote.PublicUrl(path)) else None;
    }

    /**
     * One iteration of `syncPendingLogs`: uploads the record's photo if it
     * has one (a failed upload only loses the URL), resubmits the record
     * without an operator id and, when that succeeds, deletes it locally.
     * Every failure is swallowed; the result says whether it was removed.
     */
    method SyncRecord(log: OfflineLog, a: Attempt) returns (removed: bool)
      requires Valid()
      modifies db, remote
      ensures Valid()
      ensures removed == Removes(log, a)
      ensures db.logs == if removed then old(db.logs) - {log.id} else old(db.logs)
      ensures remote.rows == old(remote.rows) + SyncRow(log, a)
      ensures remote.photos == PhotoStep(old(remote.photos), log, a)
    {
      var photoUrl: Option<string> := None;
      if log.photoBlob.Some? {
        var file := PhotoFile("offline_photo_" + log.id + ".jpg", log.photoBlob.value.content);
        photoUrl := UploadPhoto(file, log.assetId, a.uploadNow, a.upload);
      }
      var sent := SubmitLog(SyncEntry(log, photoUrl), a.insert);
      assert BuildDbPayload(SyncEntry(log, photoUrl)) == BuildDbPayload(SyncEntry(log, None));
      removed := false;
      if sent.Ok? {
        removed := db.Delete(log.id, a.deleteOk);
      }
    }

    /**
     * The loop of `syncPendingLogs` over a snapshot of the pending records,
     * taken in any order (the store walks the keys in ascending order, one of
     * the orders allowed); `order` is the order used.
     */
    method DrainSnapshot(snap: map<string, OfflineLog>, net: string -> Attempt)
      returns (count: nat, ghost order: seq<string>)
      requires Valid()
      requires forall k :: k in snap ==> snap[k].id == k
      modifies db, remote
      ensures Valid()
      ensures count == |Removed(snap, net)|
      ensures db.logs == old(db.logs) - Removed(snap, net)
      ensures IsOrdering(order, snap.Keys)
      ensures remote.rows == old(remote.rows) + InsertedRows(snap, order, net)
      ensures remote.photos == PhotosAfter(old(remote.photos), snap, order, net)
    {
      count := 0;
      order := [];
      var todo := snap.Keys;
      while todo != {}
        invariant Valid()
        invariant DrainInvariant(snap, net, todo, order, count, old(db.logs), db.logs,
                                 old(remote.rows), remote.rows, old(remote.photos), remote.photos)
        decreases |todo|
      {
        var id :| id in todo;
        DrainInvariantStep(snap, net, todo, order, count, old(db.logs), db.logs,
                           old(remote.rows), remote.rows, old(remote.photos), remote.photos, id);
        var removed := SyncRecord(snap[id], net(id));
        if removed {
          count := count + 1;
        }
        todo := todo - {id};
        order := order + [id];
      }
      assert snap.Keys - todo == snap.Keys;
    }

    /**
     * `syncPendingLogs`: offline, returns 0 and touches nothing; a fault
     * reading the queue propagates. Otherwise every pending record is
     * attempted once and the number of records removed is returned.
     */
    method SyncPendingLogs(online: bool, readOk: bool, net: string -> Attempt)
      returns (r: Result<nat, Error>, ghost order: seq<string>)
      requires Valid()
      modifies db, remote
      ensures Valid()
      ensures !online ==>
                r == Ok(0) && db.logs == old(db.logs) &&
                remote.rows == old(remote.rows) && remote.photos == old(remote.photos)
      ensures online && !readOk ==>
                r == Err(StorageFault) && db.logs == old(db.logs) &&
                remote.rows == old(remote.rows) && remote.photos == old(remote.photos)
      ensures online && readOk ==>
                var snap := Pending(old(db.logs));
                r == Ok(|Removed(snap, net)|) &&
                r.value <= |snap| &&
                db.logs == old(db.logs) - Removed(snap, net) &&
                IsOrdering(order, snap.Keys) &&
                remote.rows == old(remote.rows) + InsertedRows(snap, order, net) &&
                remote.photos == PhotosAfter(old(remote.photos), snap, order, net)
    {
      order := [];
      if !online {
        return Ok(0), order;
      }
      var ok, snap := db.PendingSnapshot(readOk);
      if !ok {
        return Err(StorageFault), order;
      }
      RemovedAreDelivered(snap, net);
      if |snap| == 0 {
        assert snap.Keys == {};
        assert Removed(snap, net) == {};
        return Ok(0), order;
      }
      var count;
      count, order := DrainSnapshot(snap, net);
      r := Ok(count);
    }

    /**
     * `createLog`: when online, resolves the user, uploads the photo if any
     * and submits the entry. Offline, or when any of these throws, it adds
     * one fresh record to the local queue instead; only an error of that add
     * reaches the caller.
     */
    method CreateLog(p: CreateLogPayload, env: CreateEnv) returns (r: Result<(), Error>)
      requires Valid()
      modifies db, remote
      ensures Valid()
      ensures RemotePathFails(p, env) ==>
                (r.Ok? <==> env.storageOk && env.newId !in old(db.logs)) &&
                db.logs == (if r.Ok? then old(db.logs)[env.newId := QueuedRecord(p, env)] else old(db.logs))
      ensures r.Err? ==> r.error == StorageFault
      ensures !RemotePathFails(p, env) ==> r == Ok(()) && db.logs == old(db.logs)
      ensures !env.online || env.user.None? ==>
                remote.rows == old(remote.rows) && remote.photos == old(remote.photos)
      ensures env.online && env.user.Some? ==>
                remote.photos == (if p.photoFile.Some?
                                  then UploadStep(old(remote.photos), PhotoPath(p.assetId, env.uploadNow, p.photoFile.value.name),
                                                  p.photoFile.value.content, env.upload)
                                  else old(remote.photos)) &&
                remote.rows == old(remote.rows) +
                  (if IsValidUuid(Some(p.assetId)) && env.insert.Stored?
                   then [BuildDbPayload(OnlineEntry(p.assetId, env.user.value, HoursReadingOf(p.data, env.horometerValue),
                                                    p.data, GpsLocationOf(p.data, p.location, env.parsedLocation), None))]
                   else [])
    {
      var hoursReading := HoursReadingOf(p.data, env.horometerValue);
      var gpsLocation := GpsLocationOf(p.data, p.location, env.parsedLocation);
      var failed := false;
      if !env.online {
        failed := true;
      } else if env.user.None? {
        failed := true;
      } else {
        var photoUrl: Option<string> := None;
        if p.photoFile.Some? {
          photoUrl := UploadPhoto(p.photoFile.value, p.assetId, env.uploadNow, env.upload);
        }
        var entry := OnlineEntry(p.assetId, env.user.value, hoursReading, p.data, gpsLocation, photoUrl);
        assert BuildDbPayload(entry) == BuildDbPayload(entry.(photoUrl := None));
        var sent := SubmitLog(entry, env.insert);
        failed := sent.Err?;
      }
      if failed {
        var record := OfflineLog(env.newId, p.assetId, None, hoursReading, p.data, gpsLocation,
                                 env.now, false, p.photoFile);
        var added := db.Add(record, env.storageOk);
        if !added {
          return Err(StorageFault);
        }
      }
      r := Ok(());
    }
  }

  // ---------------------------------------------------------------------
  // Properties of createLog and a worked run
  // ---------------------------------------------------------------------

  /** A record queued while offline leaves at the next sync exactly when it is delivered and deleted. */
  lemma QueuedRecordNextSync(logs: map<string, OfflineLog>, p: CreateLogPayload, env: CreateEnv, net: string -> Attempt)
    requires env.newId !in logs
    ensures var after := logs[env.newId := QueuedRecord(p, env)];
            env.newId in Removed(Pending(after), net) <==>
              UuidShaped(p.assetId) && net(env.newId).insert.Stored? && net(env.newId).deleteOk
  {
    AddPending(logs, QueuedRecord(p, env));
    IsValidUuidIff(Some(p.assetId));
  }

  /** The ids the worked run below is meant for: a real UUID, and a placeholder that is not one. */
  lemma SampleAssetIds()
    ensures UuidShaped("123e4567-e89b-12d3-a456-426614174000")
    ensures !UuidShaped("not-a-uuid")
  {
  }

  function SampleLog(id: string, assetId: string): OfflineLog
  {
    OfflineLog(id, assetId, None, 10.0, None, None, 0, false, None)
  }

  /**
   * Three queued records, the middle one with an asset id that is not a
   * UUID, and a server that accepts everything: the run removes the two
   * good records, reports 2, and keeps the bad one queued.
   */
  lemma ThreeRecordRun(good: string, bad: string, net: string -> Attempt)
    requires UuidShaped(good) && !UuidShaped(bad)
    requires forall id :: net(id).insert.Stored? && net(id).deleteOk
    ensures var logs := map["a" := SampleLog("a", good), "b" := SampleLog("b", bad), "c" := SampleLog("c", good)];
            Removed(Pending(logs), net) == {"a", "c"} &&
            |Removed(Pending(logs), net)| == 2 &&
            logs - Removed(Pending(logs), net) == map["b" := SampleLog("b", bad)]
  {
    var logs := map["a" := SampleLog("a", good), "b" := SampleLog("b", bad), "c" := SampleLog("c", good)];
    IsValidUuidIff(Some(good));
    IsValidUuidIff(Some(bad));
    assert Pending(logs) == logs;
    assert Removes(logs["a"], net("a")) && Removes(logs["c"], net("c")) && !Removes(logs["b"], net("b"));
    var r := Removed(logs, net);
    assert forall x :: x in r <==> x == "a" || x == "c";
    assert r == {"a", "c"};
    assert logs - r == map["b" := SampleLog("b", bad)];
  }
}
