/** The two-store protocol: storage objects and `uploads` rows are changed by five
    kinds of handler with no transaction across the two stores.  Every handler is
    split at each storage, database and queue call; calls of different handlers
    interleave freely and each may fail. */
module Protocol {
  import opened Records

  /** How one call ends.  A call that raises has had no effect. */
  datatype Outcome = Ok | Raise

  /** The handler on whose behalf a clean-up runs. */
  datatype Handler = Upload | Worker | Poster | Delete | Patch

  /** A handler in flight: its program counter with its local variables.
      Each constructor names the call that comes next. */
  datatype Actor =
    | Done
    // upload_image, upload_file
    | Storing(meta: Row, names: set<string>, twice: bool)
    | StoringRenditions(meta: Row, main: Key, stored: map<string, Key>, names: set<string>, twice: bool)
    // upload_video
    | Staging(meta: Row, withPoster: bool)
    | Recording(meta: Row, raw: Key, withPoster: bool)
    | Enqueuing(raw: Key, id: Id, withPoster: bool)
    | Unrecording(raw: Key, id: Id)
    // compress_video_task
    | WorkerLoading(raw: Key, id: Id, withPoster: bool)
    | Compressing(raw: Key, id: Id, withPoster: bool)
    | MarkingReady(raw: Key, id: Id, withPoster: bool, out: Key)
    | MarkingFailed(raw: Key, id: Id)
    // generate_poster_task, and the same steps inside a compression run that owes `owes`
    | PosterLoading(video: Id)
    | PosterStoring(video: Id, meta: Row, owes: set<Key>)
    | PosterRecording(video: Id, meta: Row, image: Key, owes: set<Key>)
    | Linking(video: Id, poster: Id, image: Key, owes: set<Key>)
    | Reloading(video: Id, poster: Id, image: Key, owes: set<Key>)
    | PosterUnrecording(poster: Id, image: Key, owes: set<Key>)
    // delete_upload
    | DeleteLoading(id: Id)
    | DeletingMain(id: Id, loaded: Row)
    | Dropping(id: Id, loaded: Row, cascade: bool)
    | CascadeLoading(poster: Id)
    // set_file_visibility
    | PatchLoading(id: Id, visibility: Visibility, cascade: bool)
    | Copying(id: Id, visibility: Visibility, loaded: Row, cascade: bool)
    | CopyingRenditions(id: Id, visibility: Visibility, loaded: Row, main: Key,
                        copied: map<string, Key>, names: set<string>, cascade: bool)
    | Repointing(id: Id, visibility: Visibility, loaded: Row, adopt: Option<Key>,
                 copied: map<string, Key>, cascade: bool)
    // best-effort deletes, then on with `next`
    | Purging(handler: Handler, todo: set<Key>, next: Actor)

  /** Why a row stopped pointing at a key that the writer did not know it held. */
  datatype Cause =
    | ByDelete(loaded: Row)
    | ByPatch(loaded: Row)
    | ByMarkReady
    | ByUploadRollback
    | ByPosterRollback

  /** A lost key: what dropped it, and the row as that write found it. */
  datatype Loss = Loss(cause: Cause, found: Row)

  /** Both stores, the handlers in flight, and histories: `issued` holds every key ever
      drawn, `undeleted` every key whose own delete call raised, `outputs` every compressed
      output uploaded, `copies` every copy a PATCH made, `undropped` every row whose own
      DELETE statement raised; `losses` records keys lost to a stale write. */
  datatype State = State(
    objects: set<Key>,
    rows: map<Id, Row>,
    nextId: Id,
    actors: seq<Actor>,
    issued: set<Key>,
    undeleted: set<Key>,
    outputs: set<Key>,
    copies: set<Key>,
    undropped: set<Id>,
    losses: map<Key, Loss>)

  /** The scheduler's move: a request or task arrives, or handler `who` makes its next
      call.  `key` is the fresh uuid4 key for an upload or copy and the element to
      take for a clean-up, `name` the rendition to treat next, `meta` the columns
      fixed by a poster's input. */
  datatype Choice =
    | Start(actor: Actor)
    | Act(who: nat, outcome: Outcome, key: Key, name: string, meta: Row)

  const Empty := State({}, map[], 0, [], {}, {}, {}, {}, {}, map[])

  /** What may arrive from outside.  Compression tasks are only ever enqueued by
      upload_video, one per accepted upload, and only that route stores videos. */
  predicate Arrival(a: Actor) {
    match a
    case Storing(meta, _, _) => !meta.kind.Video?
    case Staging(meta, _) => meta.kind.Video?
    case PosterLoading(_) => true
    case DeleteLoading(_) => true
    case PatchLoading(_, _, cascade) => cascade
    case _ => false
  }

  // ----- Effects on the stores ------------------------------------------------

  function Become(s: State, who: nat, a: Actor): State
    requires who < |s.actors|
  {
    s.(actors := s.actors[who := a])
  }

  function Put(s: State, k: Key): State {
    s.(objects := s.objects + {k}, issued := s.issued + {k})
  }

  /** A copy a PATCH makes. */
  function PutCopy(s: State, k: Key): State {
    Put(s, k).(copies := s.copies + {k})
  }

  function Remove(s: State, k: Key, o: Outcome): State {
    if o.Ok? then s.(objects := s.objects - {k}) else s.(undeleted := s.undeleted + {k})
  }

  function Insert(s: State, row: Row): State {
    s.(rows := s.rows[s.nextId := row], nextId := s.nextId + 1)
  }

  function Blame(losses: map<Key, Loss>, keys: set<Key>, loss: Loss): map<Key, Loss> {
    losses + map k | k in keys :: loss
  }

  /** UPDATE of row `id` by a writer that believes the row holds `known`. */
  function Replace(s: State, id: Id, row: Row, known: set<Key>, cause: Cause): State
    requires id in s.rows
  {
    s.(rows := s.rows[id := row],
       losses := Blame(s.losses, KeysOf(s.rows[id]) - known - KeysOf(row), Loss(cause, s.rows[id])))
  }

  /** DELETE of row `id`, if it is there, by a writer that believes it holds `known`. */
  function Drop(s: State, id: Id, known: set<Key>, cause: Cause): State {
    if id !in s.rows then s else
      s.(rows := s.rows - {id},
         losses := Blame(s.losses, KeysOf(s.rows[id]) - known, Loss(cause, s.rows[id])))
  }

  /** A DELETE statement that raised. */
  function KeepRow(s: State, id: Id): State {
    s.(undropped := s.undropped + {id})
  }

  // ----- One call of each handler ---------------------------------------------

  function StepImage(s: State, c: Choice, a: Actor): State
    requires c.Act? && c.who < |s.actors| && (a.Storing? || a.StoringRenditions?)
  {
    match a
    case Storing(meta, names, twice) =>
      if c.outcome.Raise? then Become(s, c.who, Done)
      else if c.key in s.issued then s
      else Become(Put(s, c.key), c.who, StoringRenditions(meta, c.key, map[], names, twice))
    case StoringRenditions(meta, main, stored, names, twice) =>
      var all := {main} + stored.Values;
      if names != {} then
        if c.outcome.Raise? then Become(s, c.who, Purging(Upload, all, Done))
        else if c.name !in names || c.key in s.issued then s
        else Become(Put(s, c.key), c.who,
                    StoringRenditions(meta, main, stored[c.name := c.key], names - {c.name}, twice))
      else if c.outcome.Raise? then
        // the single-image route cleans up twice: in _create_image_record and in its caller
        Become(s, c.who, Purging(Upload, all, if twice then Purging(Upload, all, Done) else Done))
      else
        Become(Insert(s, meta.(storageKey := main, renditions := stored, status := Ready, poster := None)), c.who, Done)
  }

  function StepVideoUpload(s: State, c: Choice, a: Actor): State
    requires c.Act? && c.who < |s.actors| && (a.Staging? || a.Recording? || a.Enqueuing? || a.Unrecording?)
  {
    match a
    case Staging(meta, withPoster) =>
      if c.outcome.Raise? then Become(s, c.who, Done)
      else if c.key in s.issued then s
      else Become(Put(s, c.key), c.who, Recording(meta, c.key, withPoster))
    case Recording(meta, raw, withPoster) =>
      if c.outcome.Raise? then Become(s, c.who, Purging(Upload, {raw}, Done))
      else Become(Insert(s, meta.(storageKey := raw, renditions := map[], status := Processing, poster := None)),
                  c.who, Enqueuing(raw, s.nextId, withPoster))
    case Enqueuing(raw, id, withPoster) =>
      if c.outcome.Raise? then Become(s, c.who, Unrecording(raw, id))
      else var s1 := Become(s, c.who, Done);
           s1.(actors := s1.actors + [WorkerLoading(raw, id, withPoster)])
    case Unrecording(raw, id) =>
      var s1 := if c.outcome.Raise? then KeepRow(s, id) else Drop(s, id, {raw}, ByUploadRollback);
      Become(s1, c.who, Purging(Upload, {raw}, Done))
  }

  function StepWorker(s: State, c: Choice, a: Actor): State
    requires c.Act? && c.who < |s.actors|
    requires a.WorkerLoading? || a.Compressing? || a.MarkingReady? || a.MarkingFailed?
  {
    match a
    case WorkerLoading(raw, id, withPoster) =>
      // outside the try: a raise here ends the task with no clean-up at all
      Become(s, c.who, if c.outcome.Raise? then Done else Compressing(raw, id, withPoster))
    case Compressing(raw, id, withPoster) =>
      if c.outcome.Raise? then Become(s, c.who, MarkingFailed(raw, id))
      else if c.key in s.issued then s
      else Become(Put(s, c.key).(outputs := s.outputs + {c.key}), c.who, MarkingReady(raw, id, withPoster, c.key))
    case MarkingReady(raw, id, withPoster, out) =>
      if c.outcome.Raise? then Become(s, c.who, Purging(Worker, {out}, MarkingFailed(raw, id)))
      else if id !in s.rows then Become(s, c.who, Purging(Worker, {out, raw}, Done))
      else
        var row := s.rows[id];
        Become(Replace(s, id, row.(storageKey := out, status := Ready), {raw}, ByMarkReady), c.who,
               if withPoster then PosterStoring(id, row, {raw}) else Purging(Worker, {raw}, Done))
    case MarkingFailed(raw, id) =>
      var s1 := if c.outcome.Ok? && id in s.rows then s.(rows := s.rows[id := s.rows[id].(status := Failed)]) else s;
      Become(s1, c.who, Purging(Worker, {raw}, Done))
  }

  function StepPoster(s: State, c: Choice, a: Actor): State
    requires c.Act? && c.who < |s.actors|
    requires a.PosterLoading? || a.PosterStoring? || a.PosterRecording? || a.Linking? ||
             a.Reloading? || a.PosterUnrecording?
  {
    match a
    case PosterLoading(video) =>
      if c.outcome.Raise? || video !in s.rows || s.rows[video].kind != Video || s.rows[video].status != Ready
      then Become(s, c.who, Done)
      else Become(s, c.who, PosterStoring(video, s.rows[video], {}))
    case PosterStoring(video, meta, owes) =>
      if c.outcome.Raise? then Become(s, c.who, Purging(Poster, owes, Done))
      else if c.key in s.issued then s
      else Become(Put(s, c.key), c.who, PosterRecording(video, meta, c.key, owes))
    case PosterRecording(video, meta, image, owes) =>
      if c.outcome.Raise? then Become(s, c.who, Purging(Poster, owes + {image}, Done))
      else Become(Insert(s, meta.(kind := Image, storageKey := image, renditions := map[], status := Ready,
                                  contentHash := None, poster := None)),
                  c.who, Linking(video, s.nextId, image, owes))
    case Linking(video, poster, image, owes) =>
      if c.outcome.Raise? || video !in s.rows
      then Become(s, c.who, Purging(Poster, {image}, PosterUnrecording(poster, image, owes)))
      else Become(s.(rows := s.rows[video := s.rows[video].(poster := Some(poster))]), c.who,
                  Reloading(video, poster, image, owes))
    case Reloading(video, poster, image, owes) =>
      // set_poster re-reads the row after its UPDATE; a raise here looks like a failed UPDATE
      if c.outcome.Raise? || video !in s.rows
      then Become(s, c.who, Purging(Poster, {image}, PosterUnrecording(poster, image, owes)))
      else Become(s, c.who, Purging(Poster, owes, Done))
    case PosterUnrecording(poster, image, owes) =>
      var s1 := if c.outcome.Raise? then KeepRow(s, poster) else Drop(s, poster, {image}, ByPosterRollback);
      Become(s1, c.who, Purging(Poster, owes, Done))
  }

  function StepDelete(s: State, c: Choice, a: Actor): State
    requires c.Act? && c.who < |s.actors|
    requires a.DeleteLoading? || a.DeletingMain? || a.Dropping? || a.CascadeLoading?
  {
    match a
    case DeleteLoading(id) =>
      Become(s, c.who, if c.outcome.Raise? || id !in s.rows then Done else DeletingMain(id, s.rows[id]))
    case DeletingMain(id, loaded) =>
      Become(Remove(s, loaded.storageKey, c.outcome), c.who,
             if c.outcome.Raise? then Done
             else Purging(Delete, loaded.renditions.Values - {loaded.storageKey}, Dropping(id, loaded, true)))
    case Dropping(id, loaded, cascade) =>
      if c.outcome.Raise? then Become(KeepRow(s, id), c.who, Done)
      else Become(Drop(s, id, KeysOf(loaded), ByDelete(loaded)), c.who,
                  if cascade && loaded.kind == Video && loaded.poster.Some?
                  then CascadeLoading(loaded.poster.value)
                  else Done)
    case CascadeLoading(poster) =>
      Become(s, c.who,
             if c.outcome.Raise? || poster !in s.rows then Done
             else Purging(Delete, KeysOf(s.rows[poster]), Dropping(poster, s.rows[poster], false)))
  }

  function StepPatch(s: State, c: Choice, a: Actor): State
    requires c.Act? && c.who < |s.actors|
    requires a.PatchLoading? || a.Copying? || a.CopyingRenditions? || a.Repointing?
  {
    match a
    case PatchLoading(id, visibility, cascade) =>
      if c.outcome.Raise? || id !in s.rows then Become(s, c.who, Done)
      else if s.rows[id].visibility != visibility then Become(s, c.who, Copying(id, visibility, s.rows[id], cascade))
      else Become(s, c.who, if cascade then Repointing(id, visibility, s.rows[id], None, map[], cascade) else Done)
    case Copying(id, visibility, loaded, cascade) =>
      if c.outcome.Raise? then Become(s, c.who, Done)
      else if loaded.storageKey !in s.objects then
        Become(s, c.who, Repointing(id, visibility, loaded, None, map[], cascade))
      else if c.key in s.issued then s
      else Become(PutCopy(s, c.key), c.who,
                  CopyingRenditions(id, visibility, loaded, c.key, map[], loaded.renditions.Keys, cascade))
    case CopyingRenditions(id, visibility, loaded, main, copied, names, cascade) =>
      if names == {} then Become(s, c.who, Repointing(id, visibility, loaded, Some(main), copied, cascade))
      else if c.outcome.Raise? then Become(s, c.who, Purging(Patch, {main} + copied.Values, Done))
      else if c.name !in names || c.name !in loaded.renditions then s
      else if loaded.renditions[c.name] !in s.objects then
        Become(s, c.who, CopyingRenditions(id, visibility, loaded, main, copied, names - {c.name}, cascade))
      else if c.key in s.issued then s
      else Become(PutCopy(s, c.key), c.who,
                  CopyingRenditions(id, visibility, loaded, main, copied[c.name := c.key], names - {c.name}, cascade))
    case Repointing(id, visibility, loaded, adopt, copied, cascade) =>
      var unused := if adopt.Some? then {adopt.value} + copied.Values else {};
      if c.outcome.Raise? || id !in s.rows then Become(s, c.who, Purging(Patch, unused, Done))
      else
        var row := s.rows[id].(visibility := visibility);
        var next := if cascade && loaded.poster.Some?
                    then PatchLoading(loaded.poster.value, visibility, false)
                    else Done;
        if adopt.None? then Become(s.(rows := s.rows[id := row]), c.who, next)
        else
          var row1 := row.(storageKey := adopt.value,
                           renditions := if loaded.renditions == map[] then row.renditions else copied);
          Become(Replace(s, id, row1, KeysOf(loaded), ByPatch(loaded)), c.who, Purging(Patch, KeysOf(loaded), next))
  }

  function StepPurge(s: State, c: Choice, a: Actor): State
    requires c.Act? && c.who < |s.actors| && a.Purging?
  {
    if a.todo == {} then Become(s, c.who, a.next)
    else if c.key !in a.todo then s
    else Become(Remove(s, c.key, c.outcome), c.who, a.(todo := a.todo - {c.key}))
  }

  /** One move of the scheduler; a move that is not possible changes nothing. */
  function Step(s: State, c: Choice): State {
    match c
    case Start(a) => if Arrival(a) then s.(actors := s.actors + [a]) else s
    case Act(who, _, _, _, _) =>
      if who >= |s.actors| then s else
        var a := s.actors[who];
        match a
        case Done => s
        case Storing(_, _, _) => StepImage(s, c, a)
        case StoringRenditions(_, _, _, _, _) => StepImage(s, c, a)
        case Staging(_, _) => StepVideoUpload(s, c, a)
        case Recording(_, _, _) => StepVideoUpload(s, c, a)
        case Enqueuing(_, _, _) => StepVideoUpload(s, c, a)
        case Unrecording(_, _) => StepVideoUpload(s, c, a)
        case WorkerLoading(_, _, _) => StepWorker(s, c, a)
        case Compressing(_, _, _) => StepWorker(s, c, a)
        case MarkingReady(_, _, _, _) => StepWorker(s, c, a)
        case MarkingFailed(_, _) => StepWorker(s, c, a)
        case PosterLoading(_) => StepPoster(s, c, a)
        case PosterStoring(_, _, _) => StepPoster(s, c, a)
        case PosterRecording(_, _, _, _) => StepPoster(s, c, a)
        case Linking(_, _, _, _) => StepPoster(s, c, a)
        case Reloading(_, _, _, _) => StepPoster(s, c, a)
        case PosterUnrecording(_, _, _) => StepPoster(s, c, a)
        case DeleteLoading(_) => StepDelete(s, c, a)
        case DeletingMain(_, _) => StepDelete(s, c, a)
        case Dropping(_, _, _) => StepDelete(s, c, a)
        case CascadeLoading(_) => StepDelete(s, c, a)
        case PatchLoading(_, _, _) => StepPatch(s, c, a)
        case Copying(_, _, _, _) => StepPatch(s, c, a)
        case CopyingRenditions(_, _, _, _, _, _, _) => StepPatch(s, c, a)
        case Repointing(_, _, _, _, _, _) => StepPatch(s, c, a)
        case Purging(_, _, _) => StepPurge(s, c, a)
  }

  /** The state a schedule leads to from the empty system. */
  function Run(schedule: seq<Choice>): State {
    if schedule == [] then Empty
    else Step(Run(schedule[..|schedule| - 1]), schedule[|schedule| - 1])
  }
}
