# File-manager service: a verified model

This project models a media service that keeps every upload in two stores with no
transaction across them: a row in the `uploads` table and one or more objects in a
storage backend.  Uploads, compression, poster extraction, visibility changes and
deletion all change both stores call by call and undo by hand what a later failing
call has spoilt.  The project proves what that compensation achieves, under every
fault schedule and every interleaving, and where it does not achieve it.

## How it is built

| Files | What they hold |
|---|---|
| `Records`, `Keys` | rows and storage keys; `Keys` has the service's string functions and proves that they agree with a structured view of a key, that no two keys are spelled alike, and that `private/` is the visibility boundary |
| `Protocol`, `ProtocolShapes` | all five handlers as actors with program counters, split at every storage, database and queue call, any number of them in flight; what one call of each can look like |
| `ProtocolAccounting`, `ProtocolRaces`, `ProtocolLosses`, `ProtocolPresence`, `ProtocolRows`, `ProtocolTheorems` | inductive invariants over all schedules: every object is accounted for; exactly which stale writes lose an object; what they can lose; which rows have their object; which columns a call may change |
| `ProtocolExamples` | concrete schedules for the interleavings the theorems exclude |
| `Stores`, `World` | the object store, the row table and the uuid source as classes whose calls may fail and log what raised; what holds of the two stores between requests, of structured keys and as they are spelled |
| `ImageUpload`, `Uploads`, `Tasks`, `Visibility` (module `VisibilityPatch`), `Management` | the handlers as methods that change the two stores in place, with whole-method contracts over all fault paths |
| `Signatures`, `SerialRuns` | the idempotency signatures; runs of any sequence of requests and tasks, as a relation between moments, and a service object whose handlers follow it |
| `SerialObjects`, `SerialExamples` | where every stored object is accounted for over such runs, exactly when a compression run strands one, and a concrete run in which it does |
| `TextScanner`, `FileValidation` | the streaming text scan, the sniffers, the validators and the decision made of them |
| `Streams`, `BulkUpload`, `Webhooks`, `LazyPool`, `Listing` | capped streaming, bulk slots, webhook delivery, the lazily built connection pool, paginated listing |

`Protocol` treats a key as an opaque name that is fresh when drawn; `Keys` justifies
this, since a key's uuid, marker and rendition name determine its spelling.  In
`Protocol` a run is a sequence of scheduler moves; a move that is not possible changes
nothing, so the theorems quantify over all sequences.  `losses` records the keys a row
stopped pointing at through a write whose author did not know the row held them.

The class-based handlers are stated against two snapshots of the stores, the log of
delete calls and the log of table calls that raised: a key counts as *refused* when a
delete call on it raised after the handler started, and a contract that excuses
something by a failing call names that call.  Each contract also says what happens when
nothing raises.  A precondition such as `Sound` or "every object's uuid has been issued"
is not asked of a caller of the service; it is the invariant of the two stores that
every handler is shown to keep (`SerialRuns.ServeAll` starts from empty stores).

## What is proved

* **Nothing is silently orphaned.**  In every reachable state of the interleaved
  protocol each stored object belongs to exactly one row, or to a handler that still
  owes its recording or deletion, or its own delete call raised, or a recorded stale
  write lost it; and once everything has come to rest an object whose delete did not
  raise is astray if and only if it is one of those losses.  Whatever interleaves, only
  compressed outputs and rotated copies can be lost, never an object an upload or a
  poster task stored.  When DELETE and PATCH run
  through uninterrupted, and PATCH does not meet a `processing` row or one made by a
  poster task still running, there are no losses.  Without PATCH, the only loss is a
  compressed output whose `mark_ready` landed between the load and the row drop of a
  DELETE.
* **Rows have their objects.**  In every reachable state, with every call interleaved, a
  row marked `ready` has its main object in storage, or a handler is about to drop that
  row, or the row's own DELETE statement raised.
* **The excluded interleavings are really bad.**  Four concrete schedules lose an
  object with every delete call succeeding: DELETE overtaken by `mark_ready`, PATCH of a
  video whose compression has read its input, two overlapping PATCHes, and PATCH of a
  poster row before it is linked.  In the second the video, private by then, also ends on
  a public key, because the task had named its output before.  The first contradicts the docstring of
  `delete_upload`, which says that no orphan is left either way
  (`app/routers/management.py:223-227`); the model follows the code.
* **Each handler has a whole-method contract** for every fault schedule: image
  store-and-record is all or nothing; one PATCH ends untouched, re-pointed at present
  copies of the same bytes, or merely flipped, and takes its poster along unless a call
  raised; DELETE is retryable and tries every rendition before it drops the row; a
  compression run sends exactly the terminal webhook its outcome calls for, and never
  fails a row it made ready.
* **Every contract is said of columns and keys.**  What a handler stores or answers is
  stated on the fields of the row and on the key as it is spelled, not through the
  function that computes it: a new row carries the visibility, owner and hash that were
  asked for, on that side of `private/`; an image's row has every rendition that was
  stored and storage gains its keys and no more; a poster takes after its video.
* **Over serial runs**, the keys of a row whose main object is present are spelled under
  `private/` exactly when the row is private, no two keys in use are spelled alike, and
  at most one usable row exists per owner and content hash unless an idempotency lookup
  itself raised.  Every stored object is a key of a row, or a delete call on it has raised,
  or it is a raw video left over after the delete of another raw video raised; as long as
  no delete call raises, storage holds the keys of rows and nothing else.  The third case
  is real: a PATCH of a video whose compression is queued, with the delete of the original
  raising once, strands the copy for good although no delete call on it was ever made.
* **The streaming scan agrees with a whole-file scan**, except that executable prefixes
  are looked for at every window start, exactly as the code does; and sniffers and
  validators agree in both directions.
* **The rest**: budgets and slot alignment of bulk uploads, capped streaming, webhook
  attempts and backoff bounds, one pool for all coroutines, and pages that add up to the
  listing.

## Assumptions

* A call that raises has had no effect; `set_poster`, which is an UPDATE and a SELECT,
  may have made its UPDATE.
* uuid4 never repeats; row ids are drawn in creation order and never reused.
* Each queued compression task runs once.
* SHA-256 is injective and its hexadecimal digests contain no colon.
* `_image_response` does not raise.
* What ffmpeg, ffprobe and the image library make of their input is a parameter (bytes,
  or nothing on failure); so are clocks, the HMAC, the receiver of a webhook and the
  order in which concurrent tasks complete.

## Model

| member | source | states |
|---|---|---|
| ProtocolTheorems.EveryObjectIsAccountedFor | app/tasks.py:295-551 | in every reachable state an object is pointed at by exactly one row, owed by a handler in flight, refused by its delete, or lost to a recorded stale write |
| ProtocolTheorems.StrayExactlyIfLost | app/routers/visibility.py:183-241 | at rest, an object whose delete never raised is unreferenced if and only if a stale write lost it |
| ProtocolTheorems.NothingUploadedIsLost | app/tasks.py:295-402 | whatever interleaves and fails, an object that is neither a compressed output nor a rotated copy is never lost: at rest it is referenced or its delete raised |
| ProtocolTheorems.ReadyRowsHaveTheirObject | app/routers/management.py:213-259 | whatever interleaves and fails, a ready row has its main object, or a handler is about to drop it; at rest only a row whose own DELETE statement raised can be without |
| ProtocolTheorems.RowsKeepTheirIdentity | app/services/metadata/postgres.py:182-232 | over any further schedule the owner, kind, hash and callback of a row never change, and its id is never given to another row |
| ProtocolTheorems.OrderlyRunsLoseNothing | app/routers/upload.py:760-830 | with DELETE and PATCH uninterrupted and PATCH kept off unfinished rows, every object is referenced, owed, or refused by its delete, whatever else interleaves or fails |
| ProtocolTheorems.OrderlyRunsAreCalm | app/tasks.py:460-551 | such runs never have a loss, and every row has at most one writer that knows its shape |
| ProtocolTheorems.LeftoversWithoutPatch | app/routers/management.py:213-259 | without PATCH, a leftover is refused by its delete or a compressed output whose mark_ready overtook a DELETE that had loaded the row as processing |
| ProtocolTheorems.PatchFreeRunsRaceOnlyOneWay | app/services/metadata/postgres.py:332-405 | without PATCH every loss is that one race |
| ProtocolTheorems.RunsAreSound | app/routers/upload.py:284-428 | every reachable state satisfies the accounting invariant |
| ProtocolAccounting.StepKeepsInv | app/tasks.py:295-551 | every call of every handler, whatever its outcome, keeps the accounting invariant |
| ProtocolAccounting.MoveKeepsSound | app/routers/visibility.py:137-241 | a change of one row by one handler that settles its own dues keeps all objects accounted for |
| ProtocolLosses.StepKeepsOriginInv | app/routers/visibility.py:93-134 | every call of every handler keeps it that a row only gains keys from an output or a copy, and that only such keys are lost |
| ProtocolPresence.StepKeepsPresent | app/tasks.py:376-397 | every call of every handler keeps it that ready rows are backed, that keys about to be deleted are no ready row's, and that what a handler has loaded or made is no other row's |
| ProtocolRows.StepKeepsToItsColumns | app/services/metadata/postgres.py:367-474 | each call of each handler changes only the columns of its own row that are its business, and adds and drops rows only as its handler may; a poster is added with its video's owner and visibility |
| ProtocolRaces.StepKeepsRaceInv | app/routers/management.py:221-258 | every call, with DELETE split and no PATCH, keeps the race invariant |
| ProtocolRaces.StepKeepsCalmInv | app/routers/visibility.py:183-280 | every orderly call keeps the invariant that no row is written behind its writer's back |
| ProtocolExamples.DeleteRaceStrandsTheOutput | app/routers/management.py:236-257 | a schedule in which DELETE overtaken by mark_ready strands the compressed output with no call failing |
| ProtocolExamples.PatchWhileProcessingStrandsTheCopy | app/routers/visibility.py:113-134 | a schedule in which PATCH of a processing video strands the rotated raw copy and leaves the private row on a public key |
| ProtocolExamples.OverlappingPatchesStrandACopy | app/routers/visibility.py:212-236 | a schedule in which two overlapping PATCHes strand a copy |
| ProtocolExamples.PatchedPosterStrandsTheCopy | app/tasks.py:376-397 | a schedule, from the upload of the video on, in which PATCH of an unlinked poster row strands the rotated copy |
| Keys.PrefixRefines | app/services/storage/base.py:44-59 | storage_prefix puts exactly the private bases under private/ |
| Keys.PrefixRoundTrip | app/services/storage/base.py:44-59 | going private and back restores a base if and only if it did not start with private/ |
| Keys.RotationRefines | app/routers/visibility.py:49-61 | _derive_rotated_key on the spelled key is rotation of the structured key |
| Keys.RotationRoundTrip | app/routers/visibility.py:49-61 | private and then public again restores the prefix and keeps the extension |
| Keys.RotationSide | app/routers/visibility.py:49-61 | for any key in a directory, proper or not: making it private puts it under private/; making it public takes it out if and only if its stripped directory is neither private itself nor twice under private/ |
| Keys.RotationOfBareKey | app/routers/visibility.py:49-61 | a key without directory goes to private/ or to the top level, under the uuid and whatever followed its first dot |
| Keys.SanitizeExtension | app/routers/utils.py:94-98 | whatever the client calls its file, the extension is one to eight lower-case letters or digits, so that a key can end in it |
| Keys.SanitizedExtension | app/routers/utils.py:94-98 | no extension, or nothing left of it, becomes bin; one of letters and digits is kept in lower case, up to eight characters |
| Keys.SanitizedWithout | app/routers/utils.py:90-98 | any other character in the extension makes no difference |
| Keys.LettersAndDigits | app/routers/utils.py:90 | the characters kept are the small letters and the digits |
| Keys.NamesAreAliases | app/services/renditions.py:94-117 | a name means a rendition if and only if, blanks and case aside, it is one of its listed aliases |
| Keys.SuffixIsAlias | app/services/renditions.py:40-104 | the suffix of a rendition's key is one of its aliases: t300 for the thumbnail, the name itself otherwise |
| Keys.BlanksStripped | app/services/renditions.py:114-117 | stripping takes blanks off both ends, as many as there are, and nothing else |
| Keys.LowerCaseOfLetters | app/services/renditions.py:114-117 | lower-casing maps the alphabet onto the small alphabet and leaves every other character |
| Keys.SlashesStripped | app/services/storage/base.py:44-59 | stripping takes slashes off both ends, as many as there are, and nothing else |
| Keys.DrawnKeyText | app/routers/upload.py:238-240 | a key is spelled storage_prefix, slash, uuid (with the marker of a compressed output), dot, extension, and is private exactly when its visibility is |
| Keys.CanonicalIsNormal | app/services/renditions.py:109-117 | a canonical name normalises to itself |
| Keys.RenditionRefines | app/services/renditions.py:126-143 | derive_rendition_key on the spelled key is the structured rendition key for every spelling of a known name, and appends an unknown name as it is |
| Keys.RenditionKeepsSide | app/services/renditions.py:126-143 | a rendition key, under any spelling of a known name, is private exactly when its parent is |
| Keys.RenditionKeysAreDistinct | app/services/renditions.py:126-143 | a rendition key is never a primary key, and two coincide if and only if their names mean the same rendition and their parents differ in extension only |
| Keys.TextInjective | app/routers/visibility.py:49-61 | distinct structured keys are spelled differently |
| Keys.TextBoundary | app/services/storage/base.py:44-59 | a spelled key starts with private/ exactly when the key is hidden |
| World.BoundaryIsSpelled | app/routers/visibility.py:49-61 | in sound stores the keys of a row whose object is present are spelled under private/ exactly when it is private, and no two keys in use are spelled alike |
| Stores.ObjectStore.Delete | app/services/storage/local.py:80-86 | delete is idempotent and touches one key; a raising call changes nothing |
| Stores.ObjectStore.Copy | app/services/storage/local.py:88-95 | copy duplicates the bytes, reports a missing source, or fails with no effect |
| Stores.RowTable.Create | app/services/metadata/postgres.py:182-232 | a new row under a fresh id, or no effect; a duplicate storage key raises |
| Stores.RowTable.SetPoster | app/services/metadata/postgres.py:417-427 | the link is made and read back, or there is no row, or a raise that may hide a made link |
| Stores.RowTable.SetVisibility | app/services/metadata/postgres.py:449-474 | visibility, key and renditions move in one statement for the owner's row only, and no other column moves |
| Stores.RowTable.MarkReady | app/services/metadata/postgres.py:367-396 | the row gets the new key and becomes ready, or is gone, or nothing happened |
| Stores.RowTable.FindReadyByHash | app/services/metadata/postgres.py:342-352 | the newest row of this owner and hash that is ready, whatever its kind; or no such row is ready; or the lookup raised |
| Stores.RowTable.FindActiveVideoByHash | app/services/metadata/postgres.py:354-365 | the newest video of this owner and hash that has not failed; or every one has failed; or the lookup raised |
| ImageUpload.StoreAndRecordImage | app/routers/upload.py:359-428 | all or nothing: exactly when no call raises a ready row that has every rendition of the image under its name, storage having gained the keys of that row and no others, with their bytes; else no row and of the written keys only those whose every delete attempt raised |
| ImageUpload.CreateImageRecord | app/routers/upload.py:321-356 | the row, or else every uploaded key deleted (twice when the failure is raised on) but for those whose every delete raised |
| ImageUpload.CleanupUploadedKeys | app/routers/upload.py:284-287 | each key is tried once in order; what is left of them was refused |
| ImageUpload.UploadImageRenditions | app/routers/upload.py:304-318 | succeeds exactly when no upload raises; every key written is remembered, up to and including a failure, and every rendition is recorded under its name |
| ImageUpload.WholeImage | app/routers/upload.py:379-394 | the uploads of one image add up to exactly the keys of its row, with their bytes |
| ImageUpload.TwoPasses | app/routers/upload.py:346-356 | a key left by two clean-ups was refused by both |
| Uploads.ProcessSingleImage | app/routers/upload.py:151-281 | answers with an existing ready row of this owner and hash, or stores and records a new one with the visibility asked for and every rendition, or leaves nothing behind but refused keys; without a fault which of these is decided by the lookup and the codec; it stores past a hit only when the lookup itself raised |
| Uploads.UploadFile | app/routers/upload.py:849-949 | the same for generic files: the new row's visibility is the one asked for, and its key is spelled accordingly |
| Uploads.UploadVideo | app/routers/upload.py:691-838 | without a fault: accepted exactly when every earlier video of this owner and hash has failed, else answered with one that has not; accepted: row processing with the visibility and callback asked for, raw object staged, one task queued; refused: nothing queued, a row left only when the DELETE of that row raised, the raw object only when its delete raised |
| VisibilityPatch.SetFileVisibility | app/routers/visibility.py:183-241 | an error leaves every row and row object untouched; 200 turns the row, turns or keeps its poster, touches no other row, and leaves fresh copies only where a delete raised; without faults the answer is 200 or 404 and the poster is turned too |
| VisibilityPatch.RotateKeyOnVisibilityChange | app/routers/visibility.py:93-134 | copies of main object and existing renditions under a fresh uuid on the other side, or nothing to move, or failure with the copies taken back |
| VisibilityPatch.RotateRenditions | app/routers/visibility.py:64-90 | exactly the renditions that still exist are copied; on failure every copy is gone or refused |
| VisibilityPatch.AdoptRotation | app/routers/visibility.py:212-234 | the row is re-pointed and the old objects swept, or the copies are taken back and the row is untouched |
| VisibilityPatch.CascadeVisibilityToPoster | app/routers/visibility.py:244-280 | the poster is turned or untouched, and nothing else changes; turned whenever it is the owner's and nothing raises |
| VisibilityPatch.TurnPosterToo | app/routers/visibility.py:236-239 | the cascade never changes what became of the parent row |
| VisibilityPatch.PatchKeepsBoundary | app/routers/visibility.py:49-134 | a PATCH, however it ends, keeps private rows and only them under private/ |
| Management.DeleteUpload | app/routers/management.py:213-259 | objects go before the row; 204 means that every key of the row was tried, its main object is gone and each rendition left was refused every time; 502 only for a raising load, main delete or row drop, and leaves all rows; nothing goes but what a delete call took |
| Management.CascadeDeletePoster | app/routers/management.py:185-204 | the poster's objects are swept best-effort and then its row dropped, or nothing happens |
| Management.LeftIsRefused | app/routers/management.py:236-247 | a key that was tried and is still there was refused each time, and some call raised |
| Management.RowOutlivesItsObject | app/routers/management.py:236-255 | over any number of attempts under any faults the row is dropped only after its main object, and every rendition was tried, and those left refused, by the attempt that answered 204 |
| Management.CleanAttemptFinishes | app/routers/management.py:218-227 | one attempt without a fault finishes whatever earlier attempts left, poster included |
| Tasks.CompressVideo | app/tasks.py:460-551 | exactly the terminal webhook that the outcome calls for; load failure exactly when get_by_id raised, and the raw delete attempted on every other path; a row made ready is never failed, and its key is spelled for its visibility and format; a poster takes after the video; without a fault the row is ready on a present output, with its poster |
| Tasks.TryCompress | app/tasks.py:483-548 | the same for the body, and that it fails only for a missing input, a failed encoding, a failing storage call or a raising mark_ready |
| Tasks.Publish | app/tasks.py:506-534 | mark_ready and what follows: success, a discarded output when the row is gone, or the output taken back when it raised; the poster linked when asked for and nothing raises |
| Tasks.FinishRun | app/tasks.py:524-534 | after mark_ready nothing raises out of the task; the poster step changes the outcome in no other way |
| Tasks.RecordFailure | app/tasks.py:540-547 | the row is marked failed unless mark_failed raised, and the failed webhook follows exactly a recorded failure |
| Tasks.ExtractAndStorePoster | app/tasks.py:295-402 | a poster row with its object, linked, or both taken back; an object without row was refused by its delete; linked whenever there is a frame and a video and nothing raises |
| Tasks.GeneratePoster | app/tasks.py:606-642 | only for ready videos; a new row has the video's owner and visibility and is spelled under private/ exactly when the video is private; without a fault, linked exactly for a ready video whose object is there |
| Tasks.PosterTakesAfter | app/tasks.py:352-367 | a poster row has the owner and visibility of its video, is an image ready at once, and is spelled on the video's side of the boundary |
| Tasks.OutputIsFor | app/tasks.py:472-480 | an output is spelled on the side of its video, with the compressed marker and the extension its format asks for |
| Tasks.WebhookQueue.Enqueue | app/tasks.py:66-77 | nothing without a callback, one entry with one unless the queue raised, and never a raise |
| Signatures.JoinInjective | app/routers/upload.py:180-183 | colon-joined fields without colons determine fields and their number |
| Signatures.ContentHashInjective | app/routers/upload.py:731-734 | equal content hashes mean equal bytes, equal options and the same kind |
| Signatures.SignatureInjective | app/routers/upload.py:180-184 | equal signatures mean equal requests, and for images the same pipeline version |
| SerialRuns.ServeAll | app/routers/upload.py:185-197 | serving any sequence of requests and tasks from empty stores under any faults is a run; so the spelled boundary holds, and usable rows are unique per owner and hash unless an idempotency lookup raised |
| SerialRuns.SerialRunsAreSafe | app/routers/upload.py:185-197 | at every moment of every run: the spelled boundary, distinct spellings, rows with disjoint keys, and unique usable rows unless a lookup raised |
| SerialRuns.ServedKeepsSteady | app/routers/visibility.py:183-241 | whatever any job may do by its handler's contract keeps the invariant between jobs, queued tasks included |
| SerialObjects.EveryObjectHasItsPlace | app/routers/upload.py:284-428 | at every moment of every run a stored object is a key of a row, or a delete call on it raised, or it is a raw video after the refused delete of another; without refused deletes storage holds the keys of rows only |
| SerialObjects.ServedStaysTallied | app/tasks.py:449-456 | whatever any job does keeps these accounts, and what each queued task will find |
| SerialObjects.RunStrandsExactly | app/tasks.py:506-551 | a successful run whose raw object goes strands the object its video pointed at if and only if that is another one and is stored |
| SerialObjects.PostersTakeAfterTheirVideo | app/tasks.py:628-634 | a row that a compression run or a poster task adds takes after a video: private exactly when that is |
| SerialExamples.RefusedOriginalStrandsItsCopy | app/routers/visibility.py:212-234 | a run of three jobs, with one refused delete of the original, that leaves the rotated raw copy in no row and never tried to be deleted |
| SerialRuns.NewRowIsUnique | app/services/metadata/postgres.py:342-365 | an upload that found nothing adds the only usable row, because signatures of different kinds never coincide |
| SerialRuns.EvolvingKeepsUnique | app/services/metadata/postgres.py:367-405 | status changes, deletions and poster rows never create a second usable row |
| SerialRuns.RunKeepsStores | app/tasks.py:472-480 | a compression run keeps stores sound and boundary intact, and changes the status of its own row only |
| SerialRuns.PosterKeepsStores | app/tasks.py:606-642 | so does a poster task |
| SerialRuns.UploadKeepsStores | app/routers/upload.py:238-240 | so does an upload |
| SerialRuns.DeleteKeepsStores | app/routers/management.py:213-259 | so does a DELETE |
| TextScanner.ScanFile | app/services/file_validation.py:332-346 | rejects a file if and only if the whole file contains a pattern in any mixture of cases, an opening tag, or an executable magic at a window start |
| TextScanner.WindowDecides | app/services/file_validation.py:336-346 | the prefix seen and the next window decide the longer prefix: nothing is missed at a chunk boundary |
| TextScanner.OccurrenceSplits | app/services/file_validation.py:328-346 | an occurrence lies in what was seen or in the next window, as long as the overlap is no shorter than the pattern less one |
| TextScanner.XmlIsATag | app/services/file_validation.py:274-275 | the XML clause rejects nothing the tag search would let through |
| TextScanner.PatternsIgnoreCase | app/services/file_validation.py:259-276 | the lower-casing search finds a pattern exactly where it stands with each letter in either case |
| TextScanner.FoldForgetsCase | app/services/file_validation.py:259-276 | lower-casing forgets the case of letters and nothing else |
| TextScanner.DangerIsDangerous | app/services/file_validation.py:259-276 | a header is dangerous if and only if it starts with an executable magic, contains a pattern in any case, or is XML with an SVG or a document type |
| FileValidation.ValidateFileFromPath | app/services/file_validation.py:417-441 | off the allow-list: rejected; declared: that type if and only if the sample is not dangerous, verifies as it, and a text type has a clean file, else rejected; octet-stream or nothing declared: the sniffed type, else a text type the name suggests if the file is clean, else octet-stream |
| FileValidation.SniffMagicType | app/services/file_validation.py:232-242 | what is sniffed has a validator, and it accepts the header |
| FileValidation.VerifiedIsSniffed | app/services/file_validation.py:278-312 | a header some validator accepts is recognised by some sniffer |
| FileValidation.SniffsTheFirst | app/services/file_validation.py:232-242 | what is sniffed is the first type, in the sniffers' order, that the header verifies as |
| FileValidation.SniffsTheLast | app/services/file_validation.py:205-242 | WebM and QuickTime are answered last, WebM only without an ftyp box |
| FileValidation.NoValidator | app/services/file_validation.py:278-312 | a type has no validator exactly if even an empty file verifies as it |
| FileValidation.AacIsNeverSniffed | app/services/file_validation.py:123-135 | every AAC header is an MP3 header, so sniffing never answers AAC |
| FileValidation.UndeclaredTypes | app/services/file_validation.py:349-404 | without a declared type the answer is the sniffed type, else a text type the name suggests, else octet-stream |
| Webhooks.DeliverWebhook | app/services/webhooks.py:122-192 | delivered if and only if some attempt up to the limit is answered with a status from 200 to 299; attempts is the first such, else the limit; that many POSTs, each signed for its own timestamp; the last error, which for no attempt says so; the exact time slept and its two bounds |
| Webhooks.BackoffIsBounded | app/services/webhooks.py:116-119 | total backoff is at most 30 seconds a retry and at most the geometric sum, and equals it while uncapped |
| LazyPool.OnePool | app/services/metadata/postgres.py:113-131 | at most one build succeeds, and every returning caller returns its pool |
| LazyPool.PoolStays | app/services/metadata/postgres.py:117-131 | once there, the pool is the one everybody gets |
| LazyPool.WaiterReturns | app/services/metadata/postgres.py:113-131 | with a pool there a new caller has it at once, and a waiter finds the lock free and returns the pool |
| LazyPool.WaiterGetsThere | app/services/metadata/postgres.py:113-131 | from every reachable state a waiting caller can come to return a pool, in two moves at the most |
| LazyPool.OthersUnaffected | app/services/metadata/postgres.py:113-131 | a move touches nobody but the caller that makes it |
| LazyPool.CancelledRaises | app/services/metadata/postgres.py:113-131 | a cancelled caller, waiting or building, raises, and so does one whose build fails; the pool stays as it is |
| LazyPool.Retryable | app/services/metadata/postgres.py:118-129 | after failed or cancelled builds a new caller can take the lock and build |
| LazyPool.LockIsLetGo | app/services/metadata/postgres.py:118-130 | a build that ends in any way releases the lock |
| BulkUpload.UploadImages | app/routers/upload.py:620-680 | one entry per file in the files' order under every completion order; succeeded plus failed is total is the number of files |
| BulkUpload.ReadBulkFiles | app/routers/upload.py:558-608 | slot i is batch_too_large if and only if the bytes accepted before it reach the budget; other slots hold the file's own bytes or own error, processing_failed only when reading raised |
| BulkUpload.ReadableIsThere | app/routers/upload.py:558-608 | a readable file within the cap whose turn comes before the budget is used up is there with its bytes |
| BulkUpload.BudgetNeverClears | app/routers/upload.py:570-580 | once a slot is batch_too_large, all later ones are |
| BulkUpload.BudgetOvershoot | app/routers/upload.py:582-585 | accepted bytes exceed a positive budget by less than one file |
| BulkUpload.ProcessSlots | app/routers/upload.py:637-671 | every result goes back into the slot of the file it is about |
| BulkUpload.CountItems | app/routers/upload.py:673-674 | the counts are the numbers of success and error entries |
| Listing.PagesAreTheListing | app/services/metadata/postgres.py:264-316 | pages, each ordered by its own query, concatenate to every row of the owner that meets the filters once, newest first and larger id first within a moment, as many as count says, each with its poster |
| Listing.PageIsShort | app/services/metadata/postgres.py:286-291 | a page never has more rows than its limit |
| Listing.OneAnswer | app/services/metadata/postgres.py:286-291 | every page request has exactly one answer |
| Listing.OneOrder | app/services/metadata/postgres.py:280-286 | rows with distinct ids can be ordered in one way only |
| Listing.JoinIsOneToOne | app/services/metadata/postgres.py:275-279 | the LEFT JOIN neither drops nor duplicates a row and finds the poster if there is one |
| Listing.Count | app/services/metadata/postgres.py:297-316 | the number of rows of the owner that meet the filters |
| Streams.StreamCappedToTemp | app/routers/utils.py:51-87 | success if and only if the body fits, the client stays and nothing raises, and then file, size and digest are those of the whole body; every abort removes the file; never more than the cap is on disk |
| Streams.ReadCapped | app/routers/utils.py:32-48 | the whole body if and only if it fits, the client stays and reading does not raise; else the body's own first reason to stop |
| Streams.UploadFromPath | app/services/storage/local.py:58-70 | the object gets the file's bytes exactly when no write raises; a raising write leaves a prefix of them |

## Left out

- Stores.RowTable.Create: only the columns the handlers depend on are modelled; ids are counters instead of uuid strings.
- Stores.ObjectStore.Copy: a backend call that raises has no effect here, although a raising chunked write to local storage leaves a prefix behind (see Streams.UploadFromPath).
- Uploads.ProcessSingleImage: draws its uuid before the lookup, which changes nothing but which names are used up; transform parameters and the response body are not modelled.
- Uploads.UploadVideo: callback validation, the temp file and `set_task_id` are not modelled.
- Tasks.CompressVideo: probing, trimming, ffmpeg arguments and local temp files are reduced to whether the input was there and what the encoder returned.
- Tasks.GeneratePoster: finding an input source and seeking are reduced to whether the video's object is there and what frame came back.
- VisibilityPatch.RotateRenditions: the renditions are visited, and clean-up keys deleted, in an arbitrary order instead of the dictionary's.
- Management.DeleteUpload: renditions and the poster's objects are deleted in an arbitrary order.
- FileValidation.ValidateFileFromPath: normalisation of the declared type (parameters, case, aliases) and guessing by file name are inputs; the allow-list is the datatype Mime.
- Webhooks.DeliverWebhook: seconds are real numbers without rounding; exceptions other than connection errors, which the code does not catch, are not modelled.
- Keys.RenditionRefines: stripping and lower-casing a name is modelled for ASCII only.
- Keys.SanitizeExtension: lower-casing is modelled for ASCII only; other letters are dropped either way, except the two that lower-case to ASCII.
- A null and an empty `renditions` dictionary are the same value.
- The share-token column and its unique index, `mark_webhook`, redelivery, share links, health and task-status routes: single decisions that would add easy members.
- `aclose` on the metadata store, which takes the pool away again.
- A local-storage OSError that is not a StorageError passes by the handlers' clean-up; here every storage failure is a StorageError.
- Redelivery of a queued task: `mark_failed` is unguarded, so a second run could fail a ready row.
- Image and video codecs, S3/GCS/B2 clients, Redis, HTTP, JWT, configuration and response shaping.
