/**
 * The remote side as the client sees it: the `daily_logs` table it inserts
 * into and the `checklist-photos` storage bucket it uploads to. The answer
 * the network and the server give to each request is an input (an oracle);
 * the model records what the client caused to be stored.
 */
module Backend {
  import opened Wrappers
  import opened JsValue

  /** The row `submitLog` sends; `asset_id` is `undefined` when it was not a UUID. */
  datatype DbPayload = DbPayload(
    asset_id: Option<string>,
    operator_id: Option<string>,
    hours_reading: real,
    answers: Option<Json>,
    gps_lat: Option<Json>,
    gps_lng: Option<Json>)

  /** The server's answer to an insert: the stored row's keys, or an error. */
  datatype InsertReply = Stored(id: string, createdAt: string) | InsertFailed

  /** The storage service's answer to an upload. */
  datatype UploadReply = UploadAccepted | UploadFailed

  /**
   * The bucket after an upload request: the object is stored when the
   * service accepts it and the path is still free (`upsert: false`).
   */
  function UploadStep(photos: map<string, seq<bv8>>, path: string, content: seq<bv8>, reply: UploadReply): (r: map<string, seq<bv8>>)
    ensures path in photos ==> r == photos
    ensures reply.UploadFailed? ==> r == photos
    ensures reply.UploadAccepted? && path !in photos ==> r == photos[path := content]
  {
    if reply.UploadAccepted? && path !in photos then photos[path := content] else photos
  }

  class RemoteStore {
    /** Rows this client inserted into `daily_logs`, in order. */
    var rows: seq<DbPayload>
    /** Objects of the `checklist-photos` bucket, by path. */
    var photos: map<string, seq<bv8>>
    /** The bucket's public URL prefix. */
    const publicBase: string

    constructor (publicBase: string)
      ensures rows == [] && photos == map[] && this.publicBase == publicBase
    {
      rows := [];
      photos := map[];
      this.publicBase := publicBase;
    }

    /** `insert(payload).select().single()`. */
    method Insert(p: DbPayload, reply: InsertReply) returns (r: Result<(string, string), ()>)
      modifies this`rows
      ensures reply.Stored? ==> rows == old(rows) + [p] && r == Ok((reply.id, reply.createdAt))
      ensures reply.InsertFailed? ==> rows == old(rows) && r == Err(())
    {
      if reply.Stored? {
        rows := rows + [p];
        r := Ok((reply.id, reply.createdAt));
      } else {
        r := Err(());
      }
    }

    /** `upload(path, file, { upsert: false })`: an existing path is an error. */
    method Upload(path: string, content: seq<bv8>, reply: UploadReply) returns (ok: bool)
      modifies this`photos
      ensures ok <==> reply.UploadAccepted? && path !in old(photos)
      ensures photos == UploadStep(old(photos), path, content, reply)
    {
      ok := reply.UploadAccepted? && path !in photos;
      if ok {
        photos := photos[path := content];
      }
    }

    /** `getPublicUrl(path)`: computed locally, without a request. */
    function PublicUrl(path: string): string
    {
      publicBase + path
    }
  }
}
