/** The three upload routes: look for an earlier upload of the same request, otherwise
    store the object and record it, undoing what was done when a later call raises. */
module Uploads {
  import opened Records
  import opened Keys
  import opened Stores
  import opened World
  import opened Signatures
  import opened ImageUpload

  datatype Answer =
    | Existing(id: Id, row: Row)  // an earlier upload of the same request
    | Accepted(id: Id)
    | Invalid                     // 400: not an acceptable image
    | Gateway                     // 502, or the error entry of a bulk upload

  /** A compression task on the queue. */
  datatype VideoTask = VideoTask(raw: Key, id: Id, format: string)

  class TaskQueue {
    var pending: seq<VideoTask>
    ghost var faults: nat  // enqueue calls that raised so far

    constructor ()
      ensures pending == [] && faults == 0
    {
      pending, faults := [], 0;
    }

    method Kiq(task: VideoTask) returns (ok: bool)
      modifies this
      ensures pending == if ok then old(pending) + [task] else old(pending)
      ensures faults == old(faults) + if ok then 0 else 1
    {
      ok := *;
      if ok { pending := pending + [task]; } else { faults := faults + 1; }
    }
  }

  /** Whatever an upload did, it did to at most one new row `id`, `row`, and to objects
      that carry the fresh uuid of that row's key, on the side of the boundary its
      visibility asks for. */
  ghost predicate UploadEffect(s: Contents, t: Contents, issued: set<string>, id: Id, row: Row) {
    && (t.rows == s.rows || t.rows == s.rows[id := row])
    && row.storageKey.uuid !in issued && OwnKeys(row) && ProperRow(row) && row.poster.None?
    && (row.storageKey.hidden <==> row.visibility.Private?)
    && (forall k: Key :: k.uuid != row.storageKey.uuid ==> Kept(s.objects, t.objects, k))
  }

  /** Nothing is left behind but what a delete call refused to take. */
  ghost predicate Undone(s: Contents, t: Contents, log: seq<Attempt>, from: nat) {
    && t.rows == s.rows
    && (forall k :: k in s.objects ==> Kept(s.objects, t.objects, k))
    && (forall k :: k in t.objects && k !in s.objects ==> OnlyRefused(log, from, k))
  }

  /** What an upload stored is in the row it recorded, or was refused by every delete. */
  ghost predicate NothingStray(before: map<Key, Bytes>, after: map<Key, Bytes>, rows: map<Id, Row>, id: Id,
                               log: seq<Attempt>, from: nat) {
    forall k :: k in after && k !in before ==> (id in rows && k in KeysOf(rows[id])) || OnlyRefused(log, from, k)
  }

  ghost predicate ReadyHit(rows: map<Id, Row>, owner: string, hash: string) {
    exists id :: id in rows && IsReadyHit(rows[id], owner, hash)
  }

  /** Some earlier try at this video has not failed. */
  ghost predicate VideoHit(rows: map<Id, Row>, owner: string, hash: string) {
    !OnlyFailed(rows, owner, hash)
  }

  /** Every earlier try at this video has failed. */
  ghost predicate OnlyFailed(rows: map<Id, Row>, owner: string, hash: string) {
    forall id :: id in rows && rows[id].owner == owner && rows[id].contentHash == Some(hash) ==>
                   !rows[id].kind.Video? || rows[id].status.Failed?
  }

  /** What a row says of the request it was recorded for: the columns, and how its key is
      spelled, `base` being the asset prefix and `ext` the extension. */
  ghost predicate RecordedAs(row: Row, owner: string, kind: Kind, status: Status, visibility: Visibility,
                             contentHash: string, callback: bool, base: string, ext: string) {
    && row.owner == owner && row.kind == kind && row.status == status && row.visibility == visibility
    && row.contentHash == Some(contentHash) && row.callback == callback && row.poster.None?
    && Text(row.storageKey) == StoragePrefix(base, visibility) + "/" + (row.storageKey.uuid + "." + ext)
    && (PRIVATE <= Text(row.storageKey) <==> visibility.Private?)
    && row.storageKey.base == base && row.storageKey.ext == ext
  }

  lemma RowIsProper(row: Row, owner: string, kind: Kind, base: string, uuid: string, ext: string, status: Status,
                    visibility: Visibility, contentHash: string, callback: bool)
    requires row == Row(owner, kind, Key(visibility.Private?, base, uuid, false, None, ext), map[], status, visibility,
                        Some(contentHash), None, callback)
    requires base in {"images", "files", "raw/videos"} && ProperExt(ext) && Plain(uuid)
    ensures OwnKeys(row) && ProperRow(row) && row.storageKey.uuid == uuid
    ensures RecordedAs(row, owner, kind, status, visibility, contentHash, callback, base, ext)
    ensures row.storageKey.hidden <==> visibility.Private?
  {
    assert ProperBase("images") && ProperBase("files") && ProperBase("raw/videos");
    DrawnKeyText(row.storageKey, visibility);
  }

  /** What an upload leaves under its uuid, in terms of what was there before. */
  lemma OnlyTheNewKey(before: map<Key, Bytes>, after: map<Key, Bytes>, issued: set<string>, key: Key, data: Bytes)
    requires after == before || after == before[key := data]
    requires forall k :: k in before ==> k.uuid in issued
    ensures forall k :: k in after ==> k.uuid in issued + {key.uuid}
    ensures forall k: Key :: k.uuid != key.uuid ==> Kept(before, after, k)
  {
  }

  lemma KeptUnder(before: map<Key, Bytes>, after: map<Key, Bytes>, issued: set<string>, u: string)
    requires forall k :: k in before ==> k.uuid in issued
    requires forall k: Key :: k.uuid != u ==> Kept(before, after, k)
    ensures forall k :: k in after ==> k.uuid in issued + {u}
  {
    forall k | k in after ensures k.uuid in issued + {u} { assert k.uuid != u ==> Kept(before, after, k); }
  }

  /** Every object of an image carries the uuid of its main key. */
  lemma ImageStaysUnderItsUuid(row: Row, before: map<Key, Bytes>, after: map<Key, Bytes>, main: Bytes,
                               renditions: map<string, Bytes>)
    requires row.storageKey.rendition.None? && renditions.Keys <= CANONICAL_NAMES && ProperKey(row.storageKey)
    requires Complete(row, before, after, main, renditions)
    ensures OwnKeys(row) && ProperRow(row)
    ensures forall k: Key :: k.uuid != row.storageKey.uuid ==> Kept(before, after, k)
  {
    forall k | k in KeysOf(row) ensures k.uuid == row.storageKey.uuid {
      if k != row.storageKey { var n :| n in row.renditions && row.renditions[n] == k; }
    }
  }

  /** A lookup's own fault, seen from the end of the upload. */
  lemma AfterLookup(before: seq<TableFault>, looked: seq<TableFault>, after: seq<TableFault>, broken: bool)
    requires looked == before + (if broken then [LookupFault] else []) && looked <= after
    ensures before <= after && (broken ==> Raised(after, |before|, LookupFault) && after != before)
  {
    if broken { assert after[|before|] == LookupFault; }
  }

  /** The storing half of an image upload, under a uuid nothing in storage carries.  `row` is
      the row recorded, or what it would have said. */
  method StoreNewImage(storage: ObjectStore, table: RowTable, owner: string, u: string, visibility: Visibility,
                       contentHash: string, main: Bytes, renditions: map<string, Bytes>, raiseOnError: bool)
    returns (r: Answer, ghost row: Row)
    requires storage.Valid() && table.Valid() && Plain(u) && renditions.Keys <= CANONICAL_NAMES
    requires forall k :: k in storage.objects ==> k.uuid != u
    modifies storage, table
    ensures storage.Valid() && table.Valid() && table.nextId >= old(table.nextId)
    ensures storage.faults >= old(storage.faults) && old(table.faults) <= table.faults
    ensures old(storage.deletes) <= storage.deletes
    ensures r.Accepted? <==> storage.faults == old(storage.faults) && table.faults == old(table.faults)
    ensures table.rows == old(table.rows) || table.rows == old(table.rows)[old(table.nextId) := row]
    ensures forall k: Key :: k.uuid != u ==> Kept(old(storage.objects), storage.objects, k)
    ensures row.storageKey.uuid == u && OwnKeys(row) && ProperRow(row)
    ensures RecordedAs(row, owner, Image, Ready, visibility, contentHash, false, "images", "webp")
    ensures row.storageKey.hidden <==> visibility.Private?
    ensures NothingStray(old(storage.objects), storage.objects, table.rows, old(table.nextId), storage.deletes,
                         |old(storage.deletes)|)
    ensures r.Accepted? || r.Gateway?
    ensures r.Accepted? ==>
              && r.id == old(table.nextId) < table.nextId && table.rows == old(table.rows)[r.id := row]
              && Complete(row, old(storage.objects), storage.objects, main, renditions)
    ensures r.Gateway? ==>
              Undone(old(Contents(storage.objects, table.rows)), Contents(storage.objects, table.rows),
                     storage.deletes, |old(storage.deletes)|)
  {
    var key := Key(visibility.Private?, "images", u, false, None, "webp");
    row := Row(owner, Image, key, map[], Ready, visibility, Some(contentHash), None, false);
    RowIsProper(row, owner, Image, "images", u, "webp", Ready, visibility, contentHash, false);
    var stored := StoreAndRecordImage(storage, table, owner, key, main, renditions, Some(contentHash), visibility,
                                      raiseOnError);
    if stored.Created? {
      row := table.rows[stored.id];
      ImageStaysUnderItsUuid(row, old(storage.objects), storage.objects, main, renditions);
    }
    r := if stored.Created? then Accepted(stored.id) else Gateway;
  }

  /** _process_single_image.  `encoded` is what the image library makes of the bytes, main
      image and renditions, or None when it rejects them. */
  method ProcessSingleImage(storage: ObjectStore, table: RowTable, uuids: Uuids, owner: string,
                            hash: Bytes -> string, digest: string -> string, request: Request,
                            encoded: Option<(Bytes, map<string, Bytes>)>, raiseOnError: bool)
    returns (r: Answer, ghost row: Row)
    requires request.ImageRequest? && storage.Valid() && table.Valid() && uuids.Valid()
    requires encoded.Some? ==> encoded.value.1.Keys <= CANONICAL_NAMES
    requires forall k :: k in storage.objects ==> k.uuid in uuids.issued
    modifies storage, table, uuids
    ensures storage.Valid() && table.Valid() && uuids.Valid()
    ensures table.nextId >= old(table.nextId) && old(uuids.issued) <= uuids.issued
    ensures storage.faults >= old(storage.faults) && old(table.faults) <= table.faults
    ensures old(storage.deletes) <= storage.deletes
    ensures UploadEffect(old(Contents(storage.objects, table.rows)), Contents(storage.objects, table.rows),
                         old(uuids.issued), old(table.nextId), row)
    ensures NothingStray(old(storage.objects), storage.objects, table.rows, old(table.nextId), storage.deletes,
                         |old(storage.deletes)|)
    ensures forall k :: k in storage.objects ==> k.uuid in uuids.issued
    ensures row.storageKey.uuid in uuids.issued
    ensures RecordedAs(row, owner, Image, Ready, request.visibility, ContentHash(hash, digest, request), false,
                       "images", "webp")
    ensures storage.faults == old(storage.faults) && table.faults == old(table.faults) ==>
              if ReadyHit(old(table.rows), owner, ContentHash(hash, digest, request)) then r.Existing?
              else if encoded.None? then r.Invalid? else r.Accepted?
    ensures r.Existing? ==>
              && Contents(storage.objects, table.rows) == old(Contents(storage.objects, table.rows))
              && r.id in table.rows && table.rows[r.id] == r.row
              && r.row.owner == owner && r.row.contentHash == Some(ContentHash(hash, digest, request))
              && r.row.status.Ready?
    ensures table.rows != old(table.rows) ==> r.Accepted? && old(table.nextId) < table.nextId
    ensures !r.Existing? && !Raised(table.faults, |old(table.faults)|, LookupFault) ==>
              !ReadyHit(old(table.rows), owner, ContentHash(hash, digest, request))
    ensures r.Accepted? ==>
              && encoded.Some? && r.id == old(table.nextId) < table.nextId
              && table.rows == old(table.rows)[r.id := row]
              && Complete(row, old(storage.objects), storage.objects, encoded.value.0, encoded.value.1)
    ensures r.Invalid? ==> encoded.None?
    ensures r.Invalid? || r.Gateway? ==>
              Undone(old(Contents(storage.objects, table.rows)), Contents(storage.objects, table.rows),
                     storage.deletes, |old(storage.deletes)|)
  {
    var contentHash := ContentHash(hash, digest, request);
    var u := uuids.Uuid4();
    row := Row(owner, Image, Key(request.visibility.Private?, "images", u, false, None, "webp"), map[], Ready,
               request.visibility, Some(contentHash), None, false);
    RowIsProper(row, owner, Image, "images", u, "webp", Ready, request.visibility, contentHash, false);
    var existing := table.FindReadyByHash(owner, contentHash);
    ghost var looked := table.faults;
    AfterLookup(old(table.faults), looked, looked, existing.Broken?);
    if existing.Found? { return Existing(existing.id, existing.row), row; }
    if encoded.None? { return Invalid, row; }
    r, row := StoreNewImage(storage, table, owner, u, request.visibility, contentHash, encoded.value.0, encoded.value.1,
                            raiseOnError);
    KeptUnder(old(storage.objects), storage.objects, old(uuids.issued), u);
    AfterLookup(old(table.faults), looked, table.faults, existing.Broken?);
  }

  /** Takes back the one object `key`, failure suppressed. */
  method TakeBack(storage: ObjectStore, key: Key, ghost before: map<Key, Bytes>)
    requires storage.Valid() && key !in before
    requires key in storage.objects && storage.objects == before[key := storage.objects[key]]
    modifies storage
    ensures storage.Valid() && storage.faults >= old(storage.faults)
    ensures |storage.deletes| == |old(storage.deletes)| + 1 && old(storage.deletes) <= storage.deletes
    ensures storage.objects == before
            || (storage.objects == old(storage.objects) && OnlyRefused(storage.deletes, |old(storage.deletes)|, key))
  {
    var ok := storage.Delete(key);
    assert storage.deletes[|old(storage.deletes)|] == Attempt(key, ok);
    assert ok ==> storage.objects == before;
  }

  /** The storing half of a file upload. */
  method StoreNewFile(storage: ObjectStore, table: RowTable, row: Row, data: Bytes) returns (r: Answer)
    requires storage.Valid() && table.Valid() && ProperRow(row) && row.storageKey !in storage.objects
    modifies storage, table
    ensures storage.Valid() && table.Valid() && table.nextId >= old(table.nextId)
    ensures storage.faults >= old(storage.faults) && old(table.faults) <= table.faults
    ensures old(storage.deletes) <= storage.deletes
    ensures NothingStray(old(storage.objects), storage.objects, table.rows, old(table.nextId), storage.deletes,
                         |old(storage.deletes)|)
    ensures r.Accepted? || r.Gateway?
    ensures r.Accepted? <==> storage.faults == old(storage.faults) && table.faults == old(table.faults)
    ensures storage.objects == old(storage.objects) || storage.objects == old(storage.objects)[row.storageKey := data]
    ensures r.Accepted? ==>
              && r.id == old(table.nextId) < table.nextId && table.rows == old(table.rows)[r.id := row]
              && storage.objects == old(storage.objects)[row.storageKey := data]
    ensures r.Gateway? ==>
              Undone(old(Contents(storage.objects, table.rows)), Contents(storage.objects, table.rows),
                     storage.deletes, |old(storage.deletes)|)
  {
    var stored := storage.Upload(row.storageKey, data);
    if !stored { return Gateway; }
    var id := table.Create(row);
    if id.None? {
      TakeBack(storage, row.storageKey, old(storage.objects));
      return Gateway;
    }
    r := Accepted(id.value);
  }

  /** upload_generic_file, from the validated body on. */
  method UploadFile(storage: ObjectStore, table: RowTable, uuids: Uuids, owner: string,
                    hash: Bytes -> string, digest: string -> string, request: Request, ext: string)
    returns (r: Answer, ghost row: Row)
    requires request.FileRequest? && ProperExt(ext) && storage.Valid() && table.Valid() && uuids.Valid()
    requires forall k :: k in storage.objects ==> k.uuid in uuids.issued
    modifies storage, table, uuids
    ensures storage.Valid() && table.Valid() && uuids.Valid()
    ensures table.nextId >= old(table.nextId) && old(uuids.issued) <= uuids.issued
    ensures storage.faults >= old(storage.faults) && old(table.faults) <= table.faults
    ensures old(storage.deletes) <= storage.deletes
    ensures UploadEffect(old(Contents(storage.objects, table.rows)), Contents(storage.objects, table.rows),
                         old(uuids.issued), old(table.nextId), row)
    ensures NothingStray(old(storage.objects), storage.objects, table.rows, old(table.nextId), storage.deletes,
                         |old(storage.deletes)|)
    ensures forall k :: k in storage.objects ==> k.uuid in uuids.issued
    ensures row.storageKey.uuid in uuids.issued
    ensures RecordedAs(row, owner, File, Ready, request.visibility, ContentHash(hash, digest, request), false, "files",
                       ext)
    ensures row.renditions == map[]
    ensures storage.faults == old(storage.faults) && table.faults == old(table.faults) ==>
              if ReadyHit(old(table.rows), owner, ContentHash(hash, digest, request)) then r.Existing? else r.Accepted?
    ensures r.Existing? ==>
              && Contents(storage.objects, table.rows) == old(Contents(storage.objects, table.rows))
              && r.id in table.rows && table.rows[r.id] == r.row
              && r.row.owner == owner && r.row.contentHash == Some(ContentHash(hash, digest, request))
              && r.row.status.Ready?
    ensures table.rows != old(table.rows) ==> r.Accepted? && old(table.nextId) < table.nextId
    ensures !r.Existing? && !Raised(table.faults, |old(table.faults)|, LookupFault) ==>
              !ReadyHit(old(table.rows), owner, ContentHash(hash, digest, request))
    ensures r.Accepted? ==>
              && r.id == old(table.nextId) < table.nextId && table.rows == old(table.rows)[r.id := row]
              && storage.objects == old(storage.objects)[row.storageKey := request.bytes]
    ensures !r.Invalid?
    ensures r.Gateway? ==>
              Undone(old(Contents(storage.objects, table.rows)), Contents(storage.objects, table.rows),
                     storage.deletes, |old(storage.deletes)|)
  {
    var contentHash := ContentHash(hash, digest, request);
    var u := uuids.Uuid4();
    var key := Key(request.visibility.Private?, "files", u, false, None, ext);
    var newRow := Row(owner, File, key, map[], Ready, request.visibility, Some(contentHash), None, false);
    row := newRow;
    RowIsProper(row, owner, File, "files", u, ext, Ready, request.visibility, contentHash, false);
    var existing := table.FindReadyByHash(owner, contentHash);
    ghost var looked := table.faults;
    AfterLookup(old(table.faults), looked, looked, existing.Broken?);
    if existing.Found? { return Existing(existing.id, existing.row), row; }
    r := StoreNewFile(storage, table, newRow, request.bytes);
    OnlyTheNewKey(old(storage.objects), storage.objects, old(uuids.issued), row.storageKey, request.bytes);
    AfterLookup(old(table.faults), looked, table.faults, existing.Broken?);
  }

  /** Stage the raw object, record the row and enqueue the task, or undo what was done. */
  method StageVideo(storage: ObjectStore, table: RowTable, queue: TaskQueue, row: Row, data: Bytes, format: string)
    returns (r: Answer)
    requires storage.Valid() && table.Valid() && ProperRow(row) && row.storageKey !in storage.objects
    modifies storage, table, queue
    ensures storage.Valid() && table.Valid() && table.nextId >= old(table.nextId)
    ensures storage.faults >= old(storage.faults) && old(table.faults) <= table.faults
    ensures old(storage.deletes) <= storage.deletes && queue.faults >= old(queue.faults)
    ensures table.rows == old(table.rows)
            || (table.rows == old(table.rows)[old(table.nextId) := row] && old(table.nextId) < table.nextId)
    ensures storage.objects == old(storage.objects) || storage.objects == old(storage.objects)[row.storageKey := data]
    ensures NothingStray(old(storage.objects), storage.objects, table.rows, old(table.nextId), storage.deletes,
                         |old(storage.deletes)|)
    ensures r.Accepted? || r.Gateway?
    ensures r.Accepted? <==>
              && storage.faults == old(storage.faults) && table.faults == old(table.faults)
              && queue.faults == old(queue.faults)
    ensures r.Accepted? ==>
              && r.id == old(table.nextId) < table.nextId && table.rows == old(table.rows)[r.id := row]
              && storage.objects == old(storage.objects)[row.storageKey := data]
              && queue.pending == old(queue.pending) + [VideoTask(row.storageKey, r.id, format)]
    ensures r.Gateway? ==>
              && queue.pending == old(queue.pending)
              && (row.storageKey in storage.objects ==>
                    OnlyRefused(storage.deletes, |old(storage.deletes)|, row.storageKey))
              && (table.rows != old(table.rows) ==>
                    table.faults == old(table.faults) + [DeleteFault(old(table.nextId))])
  {
    var raw := row.storageKey;
    var stored := storage.Upload(raw, data);
    if !stored { return Gateway; }
    var id := table.Create(row);
    if id.None? {
      TakeBack(storage, raw, old(storage.objects));
      return Gateway;
    }
    var queued := queue.Kiq(VideoTask(raw, id.value, format));
    if !queued {
      var dropped := table.Delete(id.value, row.owner);
      assert dropped ==> table.rows == old(table.rows);
      TakeBack(storage, raw, old(storage.objects));
      return Gateway;
    }
    r := Accepted(id.value);
  }

  /** upload_video, from the hashed body on.  An accepted upload has its row `processing`,
      its raw object staged and one task queued.  A refused one queues nothing; it leaves a
      row only when the roll-back's own DELETE raised, and the raw object only when its
      delete call raised. */
  method UploadVideo(storage: ObjectStore, table: RowTable, uuids: Uuids, queue: TaskQueue, owner: string,
                     hash: Bytes -> string, digest: string -> string, request: Request,
                     visibility: Visibility, ext: string, callback: bool)
    returns (r: Answer, ghost row: Row)
    requires request.VideoRequest? && ProperExt(ext) && storage.Valid() && table.Valid() && uuids.Valid()
    requires forall k :: k in storage.objects ==> k.uuid in uuids.issued
    modifies storage, table, uuids, queue
    ensures storage.Valid() && table.Valid() && uuids.Valid()
    ensures table.nextId >= old(table.nextId) && old(uuids.issued) <= uuids.issued
    ensures storage.faults >= old(storage.faults) && old(table.faults) <= table.faults
    ensures old(storage.deletes) <= storage.deletes && queue.faults >= old(queue.faults)
    ensures UploadEffect(old(Contents(storage.objects, table.rows)), Contents(storage.objects, table.rows),
                         old(uuids.issued), old(table.nextId), row)
    ensures NothingStray(old(storage.objects), storage.objects, table.rows, old(table.nextId), storage.deletes,
                         |old(storage.deletes)|)
    ensures forall k :: k in storage.objects ==> k.uuid in uuids.issued
    ensures row.storageKey.uuid in uuids.issued
    ensures RecordedAs(row, owner, Video, Processing, visibility, ContentHash(hash, digest, request), callback,
                       "raw/videos", ext)
    ensures row.renditions == map[]
    ensures storage.faults == old(storage.faults) && table.faults == old(table.faults)
            && queue.faults == old(queue.faults) ==>
              if OnlyFailed(old(table.rows), owner, ContentHash(hash, digest, request)) then r.Accepted?
              else r.Existing?
    ensures r.Existing? ==>
              && Contents(storage.objects, table.rows) == old(Contents(storage.objects, table.rows))
              && r.id in table.rows && table.rows[r.id] == r.row
              && r.row.owner == owner && r.row.contentHash == Some(ContentHash(hash, digest, request))
              && r.row.kind.Video? && (r.row.status.Ready? || r.row.status.Processing?)
    ensures !r.Existing? && !Raised(table.faults, |old(table.faults)|, LookupFault) ==>
              !VideoHit(old(table.rows), owner, ContentHash(hash, digest, request))
    ensures table.rows != old(table.rows) ==> old(table.nextId) < table.nextId
    ensures r.Accepted? ==>
              && r.id == old(table.nextId) < table.nextId && table.rows == old(table.rows)[r.id := row]
              && storage.objects == old(storage.objects)[row.storageKey := request.bytes]
              && queue.pending == old(queue.pending) + [VideoTask(row.storageKey, r.id, request.format)]
    ensures !r.Accepted? ==> queue.pending == old(queue.pending)
    ensures !r.Invalid?
    ensures r.Gateway? ==>
              && (row.storageKey in storage.objects ==>
                    OnlyRefused(storage.deletes, |old(storage.deletes)|, row.storageKey))
              && (table.rows != old(table.rows) ==>
                    Raised(table.faults, |old(table.faults)|, DeleteFault(old(table.nextId))))
  {
    var contentHash := ContentHash(hash, digest, request);
    var u := uuids.Uuid4();
    var key := Key(visibility.Private?, "raw/videos", u, false, None, ext);
    var newRow := Row(owner, Video, key, map[], Processing, visibility, Some(contentHash), None, callback);
    row := newRow;
    RowIsProper(row, owner, Video, "raw/videos", u, ext, Processing, visibility, contentHash, callback);
    var existing := table.FindActiveVideoByHash(owner, contentHash);
    ghost var looked := table.faults;
    AfterLookup(old(table.faults), looked, looked, existing.Broken?);
    if existing.Found? { return Existing(existing.id, existing.row), row; }
    r := StageVideo(storage, table, queue, newRow, request.bytes, request.format);
    OnlyTheNewKey(old(storage.objects), storage.objects, old(uuids.issued), row.storageKey, request.bytes);
    AfterLookup(old(table.faults), looked, table.faults, existing.Broken?);
    if r.Gateway? && table.rows != old(table.rows) { assert table.faults[|looked|] == DeleteFault(old(table.nextId)); }
  }
}
