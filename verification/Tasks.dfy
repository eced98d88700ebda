/** The worker: compression runs, poster extraction, and their compensation. */
module Tasks {
  import opened Records
  import opened Keys
  import opened Stores
  import opened World
  import opened VisibilityPatch

  datatype Event = VideoCompleted | VideoFailed

  /** The queue of webhook deliveries. */
  class WebhookQueue {
    var sent: seq<(Id, Event)>
    ghost var faults: nat  // enqueue calls that raised so far

    constructor ()
      ensures sent == [] && faults == 0
    {
      sent, faults := [], 0;
    }

    /** _enqueue_webhook: a no-op without a callback, and never raises. */
    method Enqueue(id: Id, row: Row, event: Event)
      modifies this
      ensures faults >= old(faults)
      ensures sent == if row.callback && faults == old(faults) then old(sent) + [(id, event)] else old(sent)
    {
      if row.callback {
        var up := *;
        if up { sent := sent + [(id, event)]; } else { faults := faults + 1; }
      }
    }
  }

  datatype PosterResult = Linked(row: Row) | VideoGone | PosterFailed

  ghost function PosterKey(uuid: string, visibility: Visibility): Key {
    Key(visibility.Private?, "posters", uuid, false, None, "webp")
  }

  ghost function OutputKey(uuid: string, visibility: Visibility, ext: string): Key {
    Key(visibility.Private?, "videos", uuid, true, None, ext)
  }

  /** The container an output format is muxed into. */
  ghost function OutputExt(format: string): string {
    if "webm" <= format then "webm" else "mp4"
  }

  lemma TaskKeysAreProper(uuid: string, visibility: Visibility, format: string)
    requires Plain(uuid)
    ensures ProperKey(PosterKey(uuid, visibility)) && ProperKey(OutputKey(uuid, visibility, OutputExt(format)))
  {
    assert ProperBase("posters") && ProperBase("videos") && ProperExt("webp") && ProperExt("webm") && ProperExt("mp4");
  }

  ghost function PosterRow(owner: string, uuid: string, visibility: Visibility): Row {
    Row(owner, Image, PosterKey(uuid, visibility), map[], Ready, visibility, None, None, false)
  }

  /** A poster takes after its video: same owner, same visibility, and spelled on that side
      of the boundary; an image ready at once, which no upload is ever answered with. */
  ghost predicate TakesAfter(poster: Row, video: Row) {
    && poster.owner == video.owner && poster.visibility == video.visibility
    && poster.kind.Image? && poster.status.Ready? && poster.renditions == map[] && poster.contentHash.None?
    && (PRIVATE <= Text(poster.storageKey) <==> video.visibility.Private?)
    && Text(poster.storageKey) == StoragePrefix("posters", video.visibility) + "/" + (poster.storageKey.uuid + ".webp")
  }

  lemma PosterTakesAfter(video: Row, uuid: string)
    requires Plain(uuid)
    ensures TakesAfter(PosterRow(video.owner, uuid, video.visibility), video)
  {
    TaskKeysAreProper(uuid, video.visibility, "");
    DrawnKeyText(PosterKey(uuid, video.visibility), video.visibility);
    assert uuid + "." + "webp" == uuid + ".webp";
  }

  /** A compressed output is spelled on the side of its video, with the marker and the
      extension its format asks for. */
  ghost predicate OutputFor(out: Key, visibility: Visibility, format: string) {
    && (PRIVATE <= Text(out) <==> visibility.Private?)
    && Text(out) == StoragePrefix("videos", visibility) + "/" +
                    (out.uuid + "_compressed" + (if "webm" <= format then ".webm" else ".mp4"))
  }

  lemma OutputIsFor(uuid: string, visibility: Visibility, format: string)
    requires Plain(uuid)
    ensures OutputFor(OutputKey(uuid, visibility, OutputExt(format)), visibility, format)
  {
    TaskKeysAreProper(uuid, visibility, format);
    var out := OutputKey(uuid, visibility, OutputExt(format));
    DrawnKeyText(out, visibility);
    assert uuid + "_compressed" + "." + out.ext == uuid + "_compressed" + ("." + out.ext);
    assert "." + "webm" == ".webm" && "." + "mp4" == ".mp4";
  }

  /** What a poster extraction for row `video` leaves: perhaps a new row `p` for the new
      object `image`, and perhaps the link to it; nothing else changes. */
  ghost predicate PosterEffect(s: Contents, t: Contents, video: Id, p: Id, image: Key, frame: Option<Bytes>, row: Row,
                               linked: bool, log: seq<Attempt>, from: nat) {
    && (t.objects == s.objects || (frame.Some? && t.objects == s.objects[image := frame.value]))
    && p !in s.rows && p != video
    && (forall j :: j != p ==> (j in t.rows <==> j in s.rows))
    && (forall j :: j in s.rows && j != video ==> j in t.rows && t.rows[j] == s.rows[j])
    && (video in s.rows ==> video in t.rows)
    && (video in s.rows ==> t.rows[video] == s.rows[video] || t.rows[video] == s.rows[video].(poster := Some(p)))
    && (p in t.rows ==> t.rows[p] == row)
    && (image in t.objects && p !in t.rows ==> Refused(log, from, image))
    && (linked ==> video in s.rows && t.rows[video].poster == Some(p) && p in t.rows && image in t.objects)
  }

  /** The rows after an attempt to link poster row `p`: whether the link was made, and
      whether the poster row was kept. */
  ghost function RowsWith(rows: map<Id, Row>, video: Id, p: Id, row: Row, linked: bool, kept: bool): map<Id, Row> {
    var all := if linked && video in rows then rows[p := row][video := rows[video].(poster := Some(p))]
               else rows[p := row];
    if kept then all else all - {p}
  }

  /** set_poster, and its roll-back: the image goes first, then the poster's own row. */
  method LinkPoster(storage: ObjectStore, table: RowTable, video: Id, p: Id, image: Key, row: Row,
                    ghost s: Contents) returns (r: PosterResult)
    requires storage.Valid() && table.Valid() && p !in s.rows && p != video && p < table.nextId
    requires table.rows == s.rows[p := row] && storage.objects == s.objects && image in storage.objects
    modifies storage, table
    ensures storage.Valid() && table.Valid() && table.nextId == old(table.nextId)
    ensures storage.faults == old(storage.faults) && table.faults == old(table.faults) ==>
              if video in s.rows then r.Linked? else r.VideoGone?
    ensures r.VideoGone? ==> video !in s.rows
    ensures r.PosterFailed? ==> table.faults != old(table.faults)
    ensures !Raised(table.faults, |old(table.faults)|, LoadFault)
    ensures old(storage.deletes) <= storage.deletes && storage.faults >= old(storage.faults)
    ensures old(table.faults) <= table.faults
    ensures storage.objects == s.objects
            || (storage.objects == s.objects - {image} && image in s.objects)
    ensures exists linked, kept :: table.rows == RowsWith(s.rows, video, p, row, linked, kept)
    ensures image in storage.objects && p !in table.rows ==> Refused(storage.deletes, |old(storage.deletes)|, image)
    ensures r.Linked? ==>
              && video in s.rows && r.row == table.rows[video]
              && table.rows[video].poster == Some(p) && p in table.rows
                          && image in storage.objects
  {
    var linked := table.SetPoster(video, p);
    ghost var made := table.rows != s.rows[p := row];
    if !linked.Found? {
      var gone := storage.Delete(image);
      assert storage.deletes[|old(storage.deletes)|] == Attempt(image, gone);
      var dropped := table.Delete(p, row.owner);
      assert table.rows == RowsWith(s.rows, video, p, row, made, !dropped);
      return if linked.Absent? then VideoGone else PosterFailed;
    }
    assert table.rows == RowsWith(s.rows, video, p, row, true, true);
    r := Linked(linked.row);
  }

  /** An attempt to link, seen from before the image was stored. */
  lemma LinkingIsPosterEffect(before: map<Key, Bytes>, s: Contents, t: Contents, video: Id, p: Id, image: Key,
                              frame: Bytes, row: Row, linked: bool, log: seq<Attempt>, from: nat)
    requires image !in before && s.objects == before[image := frame] && p !in s.rows && p != video
    requires t.objects == s.objects || t.objects == s.objects - {image}
    requires exists made, kept :: t.rows == RowsWith(s.rows, video, p, row, made, kept)
    requires image in t.objects && p !in t.rows ==> Refused(log, from, image)
    requires linked ==> video in s.rows && t.rows[video].poster == Some(p) && p in t.rows && image in t.objects
    ensures PosterEffect(Contents(before, s.rows), t, video, p, image, Some(frame), row, linked, log, from)
  {
    assert s.objects - {image} == before;
    var made, kept :| t.rows == RowsWith(s.rows, video, p, row, made, kept);
  }

  /** _extract_and_store_poster.  `frame` is the encoded still, or None when extraction
      or encoding fails. */
  method ExtractAndStorePoster(storage: ObjectStore, table: RowTable, uuid: string, frame: Option<Bytes>,
                               owner: string, video: Id, visibility: Visibility)
    returns (r: PosterResult)
    requires storage.Valid() && table.Valid() && video < table.nextId && Plain(uuid)
    requires forall k :: k in storage.objects ==> k != PosterKey(uuid, visibility)
    modifies storage, table
    ensures storage.Valid() && table.Valid() && table.nextId >= old(table.nextId)
    ensures frame.Some? && storage.faults == old(storage.faults) && table.faults == old(table.faults) ==>
              if video in old(table.rows) then r.Linked? else r.VideoGone?
    ensures frame.None? ==>
              r.PosterFailed? && Contents(storage.objects, table.rows) == old(Contents(storage.objects, table.rows))
    ensures r.VideoGone? ==> video !in old(table.rows)
    ensures r.PosterFailed? ==>
              frame.None? || storage.faults != old(storage.faults) || table.faults != old(table.faults)
    ensures !Raised(table.faults, |old(table.faults)|, LoadFault)
    ensures old(storage.deletes) <= storage.deletes && storage.faults >= old(storage.faults)
    ensures old(table.faults) <= table.faults
    ensures PosterEffect(old(Contents(storage.objects, table.rows)), Contents(storage.objects, table.rows), video,
                         old(table.nextId), PosterKey(uuid, visibility), frame, PosterRow(owner, uuid, visibility),
                         r.Linked?, storage.deletes, |old(storage.deletes)|)
    ensures r.Linked? ==> r.row == table.rows[video]
  {
    if frame.None? { return PosterFailed; }
    var image := Key(visibility.Private?, "posters", uuid, false, None, "webp");
    var poster := Row(owner, Image, image, map[], Ready, visibility, None, None, false);
    TaskKeysAreProper(uuid, visibility, "");
    ghost var from := |storage.deletes|;
    var stored := storage.Upload(image, frame.value);
    if !stored { return PosterFailed; }
    var p := table.Create(poster);
    if p.None? {
      var _ := storage.Delete(image);
      assert storage.deletes[from].key == image;
      assert storage.objects - {image} == old(storage.objects);
      return PosterFailed;
    }
    ghost var s := Contents(storage.objects, old(table.rows));
    r := LinkPoster(storage, table, video, p.value, image, poster, s);
    LinkingIsPosterEffect(old(storage.objects), s, Contents(storage.objects, table.rows), video, p.value, image,
                          frame.value, poster, r.Linked?, storage.deletes, from);
  }

  // ----- Compression --------------------------------------------------------------------

  datatype TaskResult =
    | Success
    | Discarded     // the row was deleted meanwhile
    | TaskFailed    // re-raised after mark_failed
    | LoadFailed    // get_by_id raised, before any clean-up is armed

  /** What the body of the task, up to its `finally`, leaves for row `id`: on success the row
      is `ready` on a present output; otherwise it kept its key, and is at most marked failed. */
  ghost predicate CompressEffect(s: Contents, t: Contents, id: Id, p: Id, uuid: string, visibility: Visibility,
                                 ext: string, encoded: Option<Bytes>, r: TaskResult, log: seq<Attempt>, from: nat) {
    var out, image := OutputKey(uuid, visibility, ext), PosterKey(uuid, visibility);
    && p !in s.rows && p != id
    && (forall j :: j != p && j != id ==> (j in t.rows <==> j in s.rows) && (j in s.rows ==> t.rows[j] == s.rows[j]))
    && (p in t.rows ==> r.Success? && id in s.rows && t.rows[p] == PosterRow(s.rows[id].owner, uuid, visibility))
    && (r.Success? ==>
          && id in s.rows && id in t.rows && encoded.Some? && out in t.objects && t.objects[out] == encoded.value
          && (t.rows[id] == s.rows[id].(storageKey := out, status := Ready)
              || t.rows[id] == s.rows[id].(storageKey := out, status := Ready, poster := Some(p))))
    && (r.Discarded? ==> id !in s.rows && id !in t.rows)
    && (r.TaskFailed? ==>
          && (id in t.rows <==> id in s.rows)
          && (id in s.rows ==> t.rows[id] == s.rows[id] || t.rows[id] == s.rows[id].(status := Failed)))
    && !r.LoadFailed?
    && (forall k: Key :: k.uuid != uuid ==> Kept(s.objects, t.objects, k))
    && (forall k: Key :: k.uuid == uuid && k in t.objects ==>
          (k == out && r.Success?) || (k == image && p in t.rows) || Refused(log, from, k))
  }

  /** A successful run without a poster. */
  lemma WithoutPoster(s: Contents, m: Contents, id: Id, p: Id, uuid: string, visibility: Visibility, ext: string,
                      encoded: Option<Bytes>, log: seq<Attempt>, from: nat)
    requires id in s.rows && p !in s.rows && p != id && forall k :: k in s.objects ==> k.uuid != uuid
    requires encoded.Some? && m.objects == s.objects[OutputKey(uuid, visibility, ext) := encoded.value]
    requires m.rows == s.rows[id := s.rows[id].(storageKey := OutputKey(uuid, visibility, ext), status := Ready)]
    ensures CompressEffect(s, m, id, p, uuid, visibility, ext, encoded, Success, log, from)
  {
  }

  /** The poster step of a successful run changes the run's effect in no other way. */
  lemma WithPoster(s: Contents, m: Contents, t: Contents, id: Id, p: Id, uuid: string, visibility: Visibility,
                   ext: string, encoded: Option<Bytes>, frame: Option<Bytes>, linked: bool, log: seq<Attempt>,
                   from: nat, later: nat)
    requires id in s.rows && from <= later && p !in s.rows && p != id
    requires forall k :: k in s.objects ==> k.uuid != uuid
    requires encoded.Some? && m.objects == s.objects[OutputKey(uuid, visibility, ext) := encoded.value]
    requires m.rows == s.rows[id := s.rows[id].(storageKey := OutputKey(uuid, visibility, ext), status := Ready)]
    requires PosterEffect(m, t, id, p, PosterKey(uuid, visibility), frame,
                          PosterRow(s.rows[id].owner, uuid, visibility), linked, log, later)
    ensures CompressEffect(s, t, id, p, uuid, visibility, ext, encoded, Success, log, from)
  {
    forall k | Refused(log, later, k) ensures Refused(log, from, k) { RefusedLater(log, from, later, k); }
  }

  /** The `except` of the task: mark the row failed, best-effort, and tell the caller. */
  method RecordFailure(table: RowTable, queue: WebhookQueue, id: Id)
    requires table.Valid()
    modifies table, queue
    ensures table.Valid() && table.nextId == old(table.nextId) && old(table.faults) <= table.faults
    ensures table.rows == old(table.rows)
            || (id in old(table.rows) && table.rows == old(table.rows)[id := old(table.rows)[id].(status := Failed)])
    ensures queue.faults >= old(queue.faults)
    ensures table.faults == old(table.faults) || table.faults == old(table.faults) + [MarkFailedFault]
    ensures id in old(table.rows) && !Raised(table.faults, |old(table.faults)|, MarkFailedFault) ==>
              id in table.rows && table.rows[id].status.Failed?
    ensures queue.sent ==
            if id in old(table.rows) && old(table.rows)[id].callback && queue.faults == old(queue.faults)
               && !Raised(table.faults, |old(table.faults)|, MarkFailedFault)
            then old(queue.sent) + [(id, VideoFailed)] else old(queue.sent)
  {
    var failed := table.MarkFailed(id);
    if failed.Broken? { assert table.faults[|old(table.faults)|] == MarkFailedFault; }
    if failed.Found? { queue.Enqueue(id, failed.row, VideoFailed); }
  }

  /** A run that did not succeed: nothing under its uuid is left that was not refused. */
  lemma WithoutOutput(s: Contents, t: Contents, id: Id, p: Id, uuid: string, visibility: Visibility, ext: string,
                      encoded: Option<Bytes>, r: TaskResult, log: seq<Attempt>, from: nat)
    requires p !in s.rows && p != id && forall k :: k in s.objects ==> k.uuid != uuid
    requires var out := OutputKey(uuid, visibility, ext);
             || t.objects == s.objects
             || (encoded.Some? && t.objects == s.objects[out := encoded.value] && Refused(log, from, out))
    requires r.Discarded? ==> t.rows == s.rows && id !in s.rows
    requires r.TaskFailed? ==>
               t.rows == s.rows || (id in s.rows && t.rows == s.rows[id := s.rows[id].(status := Failed)])
    requires r.Discarded? || r.TaskFailed?
    ensures CompressEffect(s, t, id, p, uuid, visibility, ext, encoded, r, log, from)
  {
  }

  /** Takes back an output no row will point at. */
  method Withdraw(storage: ObjectStore, out: Key, ghost before: map<Key, Bytes>)
    requires storage.Valid() && out !in before && out in storage.objects
    requires storage.objects == before[out := storage.objects[out]]
    modifies storage
    ensures storage.Valid() && old(storage.deletes) <= storage.deletes && storage.faults >= old(storage.faults)
    ensures storage.objects == before
            || (storage.objects == old(storage.objects) && Refused(storage.deletes, |old(storage.deletes)|, out))
  {
    var gone := storage.Delete(out);
    assert storage.deletes[|old(storage.deletes)|] == Attempt(out, gone);
    assert gone ==> storage.objects == before;
  }

  /** The steps after a successful mark_ready: nothing here can raise out of the task. */
  method FinishRun(storage: ObjectStore, table: RowTable, queue: WebhookQueue, id: Id, row: Row, uuid: string,
                   ghost visibility: Visibility, ghost ext: string, withPoster: bool, frame: Option<Bytes>,
                   ghost s: Contents, ghost encoded: Option<Bytes>)
    requires storage.Valid() && table.Valid() && Plain(uuid) && id in s.rows && id < table.nextId
    requires table.nextId !in s.rows
    requires row == s.rows[id].(storageKey := OutputKey(uuid, visibility, ext), status := Ready)
    requires visibility == row.visibility
    requires table.rows == s.rows[id := row]
    requires forall k :: k in s.objects ==> k.uuid != uuid
    requires encoded.Some? && storage.objects == s.objects[OutputKey(uuid, visibility, ext) := encoded.value]
    modifies storage, table, queue
    ensures storage.Valid() && table.Valid() && table.nextId >= old(table.nextId)
    ensures queue.faults >= old(queue.faults) && !Raised(table.faults, |old(table.faults)|, LoadFault)
    ensures old(storage.deletes) <= storage.deletes && storage.faults >= old(storage.faults)
    ensures old(table.faults) <= table.faults
    ensures CompressEffect(s, Contents(storage.objects, table.rows), id, old(table.nextId), uuid, visibility, ext,
                           encoded, Success, storage.deletes, |old(storage.deletes)|)
    ensures withPoster && frame.Some? && storage.faults == old(storage.faults) && table.faults == old(table.faults) ==>
              id in table.rows && table.rows[id].poster == Some(old(table.nextId))
    ensures queue.sent == if row.callback && queue.faults == old(queue.faults)
                          then old(queue.sent) + [(id, VideoCompleted)] else old(queue.sent)
  {
    ghost var m, p, from := Contents(storage.objects, table.rows), table.nextId, |storage.deletes|;
    var record := row;
    WithoutPoster(s, m, id, p, uuid, visibility, ext, encoded, storage.deletes, from);
    if withPoster {
      var linked := ExtractAndStorePoster(storage, table, uuid, frame, row.owner, id, row.visibility);
      WithPoster(s, m, Contents(storage.objects, table.rows), id, p, uuid, visibility, ext, encoded, frame,
                 linked.Linked?, storage.deletes, from, from);
      if linked.Linked? { record := linked.row; }
    }
    queue.Enqueue(id, record, VideoCompleted);
  }

  /** The webhooks a run sends: at most one, `completed` only for a row it made ready and
      `failed` only for a row it marked failed, and that one unless the queue was down. */
  ghost function Terminal(rows: map<Id, Row>, id: Id, r: TaskResult, markFailedRaised: bool, queueDown: bool)
    : seq<(Id, Event)>
  {
    if id !in rows || !rows[id].callback || queueDown then []
    else if r.Success? then [(id, VideoCompleted)]
    else if r.TaskFailed? && !markFailedRaised then [(id, VideoFailed)]
    else []
  }

  /** From the stored output on: mark_ready, and what follows from its answer.  None when
      mark_ready raised, the output having been taken back. */
  method Publish(storage: ObjectStore, table: RowTable, queue: WebhookQueue, id: Id, uuid: string,
                 ghost visibility: Visibility, ghost ext: string, out: Key, withPoster: bool, frame: Option<Bytes>,
                 ghost s: Contents, ghost encoded: Bytes)
    returns (r: Option<TaskResult>)
    requires storage.Valid() && table.Valid() && id < table.nextId && Plain(uuid)
    requires out == OutputKey(uuid, visibility, ext) && (id in s.rows ==> visibility == s.rows[id].visibility)
    requires table.rows == s.rows && forall k :: k in s.objects ==> k.uuid != uuid
    requires storage.objects == s.objects[OutputKey(uuid, visibility, ext) := encoded]
    modifies storage, table, queue
    ensures storage.Valid() && table.Valid() && table.nextId >= old(table.nextId)
    ensures old(storage.deletes) <= storage.deletes && storage.faults >= old(storage.faults)
    ensures old(table.faults) <= table.faults && queue.faults >= old(queue.faults)
    ensures r.Some? ==>
              && (r.value.Success? || r.value.Discarded?) && !Raised(table.faults, |old(table.faults)|, LoadFault)
              && CompressEffect(s, Contents(storage.objects, table.rows), id, old(table.nextId), uuid, visibility, ext,
                                Some(encoded), r.value, storage.deletes, |old(storage.deletes)|)
              && queue.sent == old(queue.sent) + Terminal(s.rows, id, r.value, false, queue.faults > old(queue.faults))
    ensures r == Some(Success) && withPoster && frame.Some?
            && storage.faults == old(storage.faults) && table.faults == old(table.faults) ==>
              id in table.rows && table.rows[id].poster == Some(old(table.nextId))
    ensures r.None? ==>
              && table.rows == s.rows && table.nextId == old(table.nextId) && queue.sent == old(queue.sent)
              && queue.faults == old(queue.faults) && table.faults == old(table.faults) + [MarkReadyFault]
              && (storage.objects == s.objects
                  || (storage.objects == old(storage.objects)
                      && Refused(storage.deletes, |old(storage.deletes)|, OutputKey(uuid, visibility, ext))))
  {
    ghost var from, p := |storage.deletes|, table.nextId;
    var marked := table.MarkReady(id, out);
    if marked.Found? {
      FinishRun(storage, table, queue, id, marked.row, uuid, visibility, ext, withPoster, frame, s, Some(encoded));
      return Some(Success);
    }
    Withdraw(storage, out, s.objects);
    if marked.Broken? { return None; }
    WithoutOutput(s, Contents(storage.objects, table.rows), id, p, uuid, visibility, ext, Some(encoded), Discarded,
                  storage.deletes, from);
    r := Some(Discarded);
  }

  /** The `try` of compress_video_task.  Encoding needs its input to be there. */
  method TryCompress(storage: ObjectStore, table: RowTable, queue: WebhookQueue, raw: Key, id: Id, uuid: string,
                     ghost visibility: Visibility, ghost ext: string, out: Key, encoded: Option<Bytes>,
                     withPoster: bool, frame: Option<Bytes>)
    returns (r: TaskResult)
    requires storage.Valid() && table.Valid() && id < table.nextId
    requires Plain(uuid) && ProperKey(out) && out == OutputKey(uuid, visibility, ext)
    requires id in table.rows ==> visibility == table.rows[id].visibility
    requires forall k :: k in storage.objects ==> k.uuid != uuid
    modifies storage, table, queue
    ensures storage.Valid() && table.Valid() && table.nextId >= old(table.nextId)
    ensures old(storage.deletes) <= storage.deletes && storage.faults >= old(storage.faults)
    ensures old(table.faults) <= table.faults && queue.faults >= old(queue.faults)
    ensures CompressEffect(old(Contents(storage.objects, table.rows)), Contents(storage.objects, table.rows), id,
                           old(table.nextId), uuid, visibility, ext, encoded, r, storage.deletes,
                           |old(storage.deletes)|)
    ensures queue.sent == old(queue.sent) + Terminal(old(table.rows), id, r,
              Raised(table.faults, |old(table.faults)|, MarkFailedFault), queue.faults > old(queue.faults))
    ensures !Raised(table.faults, |old(table.faults)|, LoadFault)
    ensures r.TaskFailed? ==>
              || raw !in old(storage.objects) || encoded.None? || storage.faults > old(storage.faults)
              || Raised(table.faults, |old(table.faults)|, MarkReadyFault)
    ensures r.TaskFailed? && id in old(table.rows) && !Raised(table.faults, |old(table.faults)|, MarkFailedFault) ==>
              id in table.rows && table.rows[id].status.Failed?
    ensures r.Success? ==> raw in old(storage.objects)
    ensures r.Success? && withPoster && frame.Some?
            && storage.faults == old(storage.faults) && table.faults == old(table.faults) ==>
              table.rows[id].poster == Some(old(table.nextId))
  {
    ghost var s := Contents(storage.objects, table.rows);
    ghost var from, p := |storage.deletes|, table.nextId;
    var stored := false;
    if raw in storage.objects && encoded.Some? {
      stored := storage.Upload(out, encoded.value);
    }
    ghost var marking := table.faults;
    if stored {
      var done := Publish(storage, table, queue, id, uuid, visibility, ext, out, withPoster, frame, s, encoded.value);
      marking := table.faults;
      if done.Some? { return done.value; }
    }
    RecordFailure(table, queue, id);
    MarkingThenFailing(old(table.faults), marking, table.faults);
    WithoutOutput(s, Contents(storage.objects, table.rows), id, p, uuid, visibility, ext, encoded, TaskFailed,
                  storage.deletes, from);
    r := TaskFailed;
  }

  /** The faults of a failing run: perhaps mark_ready's, and then perhaps mark_failed's. */
  lemma MarkingThenFailing(before: seq<TableFault>, marking: seq<TableFault>, after: seq<TableFault>)
    requires marking == before || marking == before + [MarkReadyFault]
    requires after == marking || after == marking + [MarkFailedFault]
    ensures before <= after && !Raised(after, |before|, LoadFault)
    ensures Raised(after, |before|, MarkReadyFault) <==> marking != before
    ensures Raised(after, |before|, MarkFailedFault) <==> Raised(after, |marking|, MarkFailedFault)
  {
    if marking != before { assert after[|before|] == MarkReadyFault; }
    if after != marking { assert after[|marking|] == MarkFailedFault; }
  }

  /** The whole run: its body, and the raw object's delete attempted on the way out. */
  ghost predicate RunEffect(s: Contents, t: Contents, raw: Key, id: Id, p: Id, uuid: string, ext: string,
                            encoded: Option<Bytes>, r: TaskResult, log: seq<Attempt>, from: nat)
  {
    if r.LoadFailed? then t == s && |log| <= from
    else
      && Attempted(log, from, raw)
      && exists m: Contents ::
           && CompressEffect(s, m, id, p, uuid, if id in s.rows then s.rows[id].visibility else Public, ext, encoded,
                             r, log, from)
           && t.rows == m.rows
           && (t.objects == m.objects - {raw} || (t.objects == m.objects && Refused(log, from, raw)))
  }

  lemma EffectStays(s: Contents, t: Contents, id: Id, p: Id, uuid: string, visibility: Visibility, ext: string,
                    encoded: Option<Bytes>, r: TaskResult, log: seq<Attempt>, longer: seq<Attempt>, from: nat)
    requires CompressEffect(s, t, id, p, uuid, visibility, ext, encoded, r, log, from) && log <= longer
    ensures CompressEffect(s, t, id, p, uuid, visibility, ext, encoded, r, longer, from)
  {
    forall k | Refused(log, from, k) ensures Refused(longer, from, k) { RefusedStays(log, longer, from, k); }
  }

  /** What the rows say afterwards: a successful run's output, and a poster if one was made. */
  ghost predicate Outcome(s: Contents, t: Contents, id: Id, p: Id, format: string, r: TaskResult) {
    && (r.Success? ==>
          && id in s.rows && id in t.rows && t.rows[id].status.Ready?
          && OutputFor(t.rows[id].storageKey, s.rows[id].visibility, format))
    && (p in t.rows ==> id in s.rows && TakesAfter(t.rows[p], s.rows[id]))
  }

  lemma RunOutcome(s: Contents, t: Contents, raw: Key, id: Id, p: Id, uuid: string, format: string,
                   encoded: Option<Bytes>, r: TaskResult, log: seq<Attempt>, from: nat)
    requires RunEffect(s, t, raw, id, p, uuid, OutputExt(format), encoded, r, log, from) && Plain(uuid) && p !in s.rows
    ensures Outcome(s, t, id, p, format, r)
  {
    if id in s.rows {
      PosterTakesAfter(s.rows[id], uuid);
      OutputIsFor(uuid, s.rows[id].visibility, format);
    }
  }

  /** The `finally` of the task. */
  lemma RunIsDone(s: Contents, m: Contents, t: Contents, raw: Key, id: Id, p: Id, uuid: string, format: string,
                  visibility: Visibility, encoded: Option<Bytes>, r: TaskResult, log: seq<Attempt>,
                  longer: seq<Attempt>, from: nat, gone: bool)
    requires Plain(uuid) && p !in s.rows && visibility == if id in s.rows then s.rows[id].visibility else Public
    requires CompressEffect(s, m, id, p, uuid, visibility, OutputExt(format), encoded, r, log, from)
    requires !r.LoadFailed? && from <= |log| && longer == log + [Attempt(raw, gone)] && t.rows == m.rows
    requires t.objects == if gone then m.objects - {raw} else m.objects
    ensures RunEffect(s, t, raw, id, p, uuid, OutputExt(format), encoded, r, longer, from)
    ensures Outcome(s, t, id, p, format, r)
  {
    assert longer[|log|] == Attempt(raw, gone);
    EffectStays(s, m, id, p, uuid, visibility, OutputExt(format), encoded, r, log, longer, from);
    RunOutcome(s, t, raw, id, p, uuid, format, encoded, r, longer, from);
  }

  method DrawOutputKey(uuid: string, visibility: Visibility, format: string) returns (out: Key)
    requires Plain(uuid)
    ensures out == OutputKey(uuid, visibility, OutputExt(format)) && ProperKey(out)
  {
    var ext := if "webm" <= format then "webm" else "mp4";
    TaskKeysAreProper(uuid, visibility, format);
    out := Key(visibility.Private?, "videos", uuid, true, None, ext);
  }

  /** compress_video_task, for every fault schedule: at most one terminal webhook, `completed`
      only after a successful mark_ready and `failed` only after a successful mark_failed; a
      row this run made ready is never marked failed by it.  Only a raising get_by_id, which
      is outside the `try`, ends the run without an attempt to delete the raw object. */
  method CompressVideo(storage: ObjectStore, table: RowTable, uuids: Uuids, queue: WebhookQueue, raw: Key, id: Id,
                       format: string, encoded: Option<Bytes>, withPoster: bool, frame: Option<Bytes>)
    returns (r: TaskResult, ghost uuid: string)
    requires storage.Valid() && table.Valid() && uuids.Valid() && id < table.nextId
    requires forall k :: k in storage.objects ==> k.uuid in uuids.issued
    modifies storage, table, uuids, queue
    ensures storage.Valid() && table.Valid() && table.nextId >= old(table.nextId)
    ensures old(storage.deletes) <= storage.deletes && storage.faults >= old(storage.faults)
    ensures old(table.faults) <= table.faults && queue.faults >= old(queue.faults)
    ensures uuids.Valid() && uuid !in old(uuids.issued) && uuids.issued == old(uuids.issued) + {uuid} && Plain(uuid)
    ensures RunEffect(old(Contents(storage.objects, table.rows)), Contents(storage.objects, table.rows), raw, id,
                      old(table.nextId), uuid, OutputExt(format), encoded, r, storage.deletes, |old(storage.deletes)|)
    ensures Outcome(old(Contents(storage.objects, table.rows)), Contents(storage.objects, table.rows), id,
                    old(table.nextId), format, r)
    ensures r.Success? ==> raw in old(storage.objects)
    ensures r.LoadFailed? <==> Raised(table.faults, |old(table.faults)|, LoadFault)
    ensures queue.sent == old(queue.sent) + Terminal(old(table.rows), id, r,
              Raised(table.faults, |old(table.faults)|, MarkFailedFault), queue.faults > old(queue.faults))
    ensures r.TaskFailed? ==>
              || raw !in old(storage.objects) || encoded.None? || storage.faults > old(storage.faults)
              || Raised(table.faults, |old(table.faults)|, MarkReadyFault)
    ensures r.TaskFailed? && id in old(table.rows) && !Raised(table.faults, |old(table.faults)|, MarkFailedFault) ==>
              id in table.rows && table.rows[id].status.Failed?
    ensures storage.faults == old(storage.faults) && table.faults == old(table.faults)
            && raw in old(storage.objects) && encoded.Some? ==>
              if id in old(table.rows) then
                && r.Success?
                && (withPoster && frame.Some? ==> table.rows[id].poster == Some(old(table.nextId)))
              else r.Discarded?
  {
    ghost var s := Contents(storage.objects, table.rows);
    ghost var from, p := |storage.deletes|, table.nextId;
    var u := uuids.Uuid4();
    uuid := u;
    var loaded := table.GetById(id);
    if loaded.Broken? {
      assert table.faults[|old(table.faults)|] == LoadFault;
      return LoadFailed, u;
    }
    var visibility := if loaded.Found? then loaded.row.visibility else Public;
    var out := DrawOutputKey(u, visibility, format);
    r := TryCompress(storage, table, queue, raw, id, u, visibility, OutputExt(format), out, encoded, withPoster, frame);
    // finally
    ghost var m, log := Contents(storage.objects, table.rows), storage.deletes;
    var gone := storage.Delete(raw);
    RunIsDone(s, m, Contents(storage.objects, table.rows), raw, id, p, u, format, visibility, encoded, r, log,
              storage.deletes, from, gone);
  }

  /** A poster task has something to do: a ready video whose object is there. */
  ghost predicate ReadyVideo(rows: map<Id, Row>, objects: map<Key, Bytes>, video: Id) {
    video in rows && rows[video].kind.Video? && rows[video].status.Ready? && rows[video].storageKey in objects
  }

  /** generate_poster_task: only for a ready video, with the video's own visibility. */
  method GeneratePoster(storage: ObjectStore, table: RowTable, uuids: Uuids, video: Id, frame: Option<Bytes>)
    returns (r: PosterResult, ghost uuid: string)
    requires storage.Valid() && table.Valid() && uuids.Valid() && video < table.nextId
    requires forall k :: k in storage.objects ==> k.uuid in uuids.issued
    modifies storage, table, uuids
    ensures storage.Valid() && table.Valid() && table.nextId >= old(table.nextId)
    ensures storage.faults >= old(storage.faults) && old(table.faults) <= table.faults
    ensures uuids.Valid() && uuid !in old(uuids.issued) && uuids.issued == old(uuids.issued) + {uuid} && Plain(uuid)
    ensures old(storage.deletes) <= storage.deletes
    ensures frame.Some? && storage.faults == old(storage.faults) && table.faults == old(table.faults) ==>
              (r.Linked? <==> ReadyVideo(old(table.rows), old(storage.objects), video))
    ensures r.VideoGone? ==>
              || video !in old(table.rows) || !old(table.rows)[video].kind.Video?
              || !old(table.rows)[video].status.Ready?
    ensures old(table.nextId) in table.rows ==>
              video in old(table.rows) && TakesAfter(table.rows[old(table.nextId)], old(table.rows)[video])
    ensures || (Contents(storage.objects, table.rows) == old(Contents(storage.objects, table.rows)) && !r.Linked?)
            || (video in old(table.rows) && old(table.rows)[video].kind.Video? && old(table.rows)[video].status.Ready?
                && PosterEffect(old(Contents(storage.objects, table.rows)), Contents(storage.objects, table.rows),
                                video, old(table.nextId), PosterKey(uuid, old(table.rows)[video].visibility), frame,
                                PosterRow(old(table.rows)[video].owner, uuid, old(table.rows)[video].visibility),
                                r.Linked?, storage.deletes, |old(storage.deletes)|))
  {
    var u := uuids.Uuid4();
    uuid := u;
    var loaded := table.GetById(video);
    if !loaded.Found? || !loaded.row.kind.Video? || !loaded.row.status.Ready? {
      return if loaded.Broken? then PosterFailed else VideoGone, u;
    }
    PosterTakesAfter(loaded.row, u);
    var still := if loaded.row.storageKey in storage.objects then frame else None;
    r := ExtractAndStorePoster(storage, table, u, still, loaded.row.owner, video, loaded.row.visibility);
  }
}
