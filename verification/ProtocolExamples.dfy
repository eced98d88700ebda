/** The interleavings the theorems exclude do lose objects: concrete schedules. */
module ProtocolExamples {
  import opened Records
  import opened Protocol
  import opened ProtocolTheorems

  /** One more move of a schedule that led to `s`. */
  lemma Next(schedule: seq<Choice>, s: State, c: Choice) returns (longer: seq<Choice>, t: State)
    requires Run(schedule) == s
    ensures longer == schedule + [c] && t == Step(s, c) && Run(longer) == t
    ensures PatchFree(schedule) && (c.Start? ==> !c.actor.PatchLoading?) ==> PatchFree(longer)
  {
    assert (schedule + [c])[..|schedule|] == schedule;
    longer, t := schedule + [c], Step(s, c);
  }

  const RAW := Key(false, "raw/videos", "a", false, None, "mp4")
  const OUT := Key(false, "videos", "b", true, None, "mp4")
  const MOVED := Key(true, "raw/videos", "c", false, None, "mp4")
  const CLIP := Row("owner", Video, RAW, map[], Processing, Public, None, None, false)
  const FILM := CLIP.(storageKey := OUT, status := Ready)

  function Call(who: nat, key: Key): Choice {
    Act(who, Ok, key, "", CLIP)
  }

  /** What a schedule has led to, without the histories; every delete call succeeded. */
  ghost predicate At(s: State, objects: set<Key>, rows: map<Id, Row>, nextId: Id, issued: set<Key>,
                     actors: seq<Actor>) {
    && s.objects == objects && s.rows == rows && s.nextId == nextId && s.issued == issued && s.actors == actors
    && s.undeleted == {}
  }

  /** A video is uploaded ... */
  lemma RecordedVideo() returns (schedule: seq<Choice>)
    ensures PatchFree(schedule)
    ensures At(Run(schedule), {RAW}, map[0 := CLIP], 1, {RAW}, [Enqueuing(RAW, 0, false)])
  {
    var s: State;
    schedule, s := Next([], Empty, Start(Staging(CLIP, false)));
    assert s.actors == [Staging(CLIP, false)];
    schedule, s := Next(schedule, s, Call(0, RAW));
    assert s.actors == [Recording(CLIP, RAW, false)];
    schedule, s := Next(schedule, s, Call(0, RAW));
    assert s.actors == [Enqueuing(RAW, 0, false)];
    assert s.rows == map[0 := CLIP];
  }

  /** ... and its compression task has read its input. */
  lemma AcceptedVideo() returns (schedule: seq<Choice>)
    ensures PatchFree(schedule)
    ensures At(Run(schedule), {RAW}, map[0 := CLIP], 1, {RAW}, [Done, Compressing(RAW, 0, false)])
  {
    schedule := RecordedVideo();
    var s := Run(schedule);
    schedule, s := Next(schedule, s, Call(0, RAW));
    assert s.actors == [Done, WorkerLoading(RAW, 0, false)];
    schedule, s := Next(schedule, s, Call(1, RAW));
    assert s.actors == [Done, Compressing(RAW, 0, false)];
  }

  /** A handler deletes its one key and goes on. */
  lemma Purged(schedule: seq<Choice>, s: State, who: nat, h: Handler, k: Key, next: Actor)
    returns (longer: seq<Choice>, t: State)
    requires Run(schedule) == s && who < |s.actors| && s.actors[who] == Purging(h, {k}, next)
    ensures PatchFree(schedule) ==> PatchFree(longer)
    ensures Run(longer) == t
    ensures forall objects, rows, nextId, issued, actors :: At(s, objects, rows, nextId, issued, actors) ==>
              At(t, objects - {k}, rows, nextId, issued, actors[who := next])
  {
    longer, t := Next(schedule, s, Call(who, k));
    assert {k} - {k} == {};
    assert t.actors == s.actors[who := Purging(h, {}, next)];
    longer, t := Next(longer, t, Call(who, k));
    assert t.actors == s.actors[who := next];
  }

  /** A DELETE loads the row ... */
  lemma DeleteLoads() returns (schedule: seq<Choice>)
    ensures PatchFree(schedule)
    ensures At(Run(schedule), {RAW}, map[0 := CLIP], 1, {RAW},
               [Done, Compressing(RAW, 0, false), DeletingMain(0, CLIP)])
  {
    schedule := AcceptedVideo();
    var s := Run(schedule);
    schedule, s := Next(schedule, s, Start(DeleteLoading(0)));
    assert s.actors == [Done, Compressing(RAW, 0, false), DeleteLoading(0)];
    schedule, s := Next(schedule, s, Call(2, RAW));
    assert s.actors == [Done, Compressing(RAW, 0, false), DeletingMain(0, CLIP)];
  }

  /** ... and deletes the raw object ... */
  lemma DeleteOvertakes() returns (schedule: seq<Choice>)
    ensures PatchFree(schedule)
    ensures At(Run(schedule), {}, map[0 := CLIP], 1, {RAW},
               [Done, Compressing(RAW, 0, false), Purging(Delete, {}, Dropping(0, CLIP, true))])
  {
    schedule := DeleteLoads();
    var s := Run(schedule);
    schedule, s := Next(schedule, s, Call(2, RAW));
    assert CLIP.renditions.Values - {RAW} == {};
    assert s.actors == [Done, Compressing(RAW, 0, false), Purging(Delete, {}, Dropping(0, CLIP, true))];
    assert s.objects == {};
  }

  /** ... and the compression task finishes before the row is dropped. */
  lemma OutputIsRecorded() returns (schedule: seq<Choice>)
    ensures PatchFree(schedule)
    ensures At(Run(schedule), {OUT}, map[0 := FILM], 1, {RAW, OUT},
               [Done, Purging(Worker, {RAW}, Done), Purging(Delete, {}, Dropping(0, CLIP, true))])
  {
    schedule := DeleteOvertakes();
    var s := Run(schedule);
    schedule, s := Next(schedule, s, Call(1, OUT));
    assert s.actors == [Done, MarkingReady(RAW, 0, false, OUT), Purging(Delete, {}, Dropping(0, CLIP, true))];
    assert s.objects == {OUT} && s.issued == {RAW, OUT};
    schedule, s := Next(schedule, s, Call(1, OUT));
    assert s.actors == [Done, Purging(Worker, {RAW}, Done), Purging(Delete, {}, Dropping(0, CLIP, true))];
    assert s.rows == map[0 := FILM];
  }

  /** A DELETE that loads the row before mark_ready and drops it afterwards strands the
      compressed output, with no call failing. */
  lemma DeleteRaceStrandsTheOutput() returns (schedule: seq<Choice>)
    ensures PatchFree(schedule) && Quiescent(Run(schedule))
    ensures var s := Run(schedule); OUT in s.objects && !PointedAt(s, OUT) && s.undeleted == {}
  {
    schedule := OutputIsRecorded();
    var s := Run(schedule);
    schedule, s := Next(schedule, s, Call(2, OUT));
    assert s.actors == [Done, Purging(Worker, {RAW}, Done), Dropping(0, CLIP, true)];
    schedule, s := Next(schedule, s, Call(2, OUT));
    assert At(s, {OUT}, map[], 1, {RAW, OUT}, [Done, Purging(Worker, {RAW}, Done), Done]);
    schedule, s := Purged(schedule, s, 1, Worker, RAW, Done);
    assert {OUT} - {RAW} == {OUT};
    assert At(s, {OUT}, map[], 1, {RAW, OUT}, [Done, Done, Done]);
  }

  /** A PATCH that has loaded a row without renditions copies its object ... */
  lemma Copied(schedule: seq<Choice>, s: State, who: nat, id: Id, row: Row, copy: Key)
    returns (longer: seq<Choice>, t: State)
    requires Run(schedule) == s && who < |s.actors| && s.actors[who] == Copying(id, Private, row, true)
    requires row.renditions == map[] && row.storageKey in s.objects && copy !in s.issued
    ensures Run(longer) == t
    ensures forall objects, rows, nextId, issued, actors :: At(s, objects, rows, nextId, issued, actors) ==>
              At(t, objects + {copy}, rows, nextId, issued + {copy},
                 actors[who := Repointing(id, Private, row, Some(copy), map[], true)])
  {
    longer, t := Next(schedule, s, Call(who, copy));
    assert row.renditions.Keys == {};
    assert t.actors == s.actors[who := CopyingRenditions(id, Private, row, copy, map[], {}, true)];
    longer, t := Next(longer, t, Call(who, copy));
    assert t.actors == s.actors[who := Repointing(id, Private, row, Some(copy), map[], true)];
  }

  /** ... and re-points the row. */
  lemma Repointed(schedule: seq<Choice>, s: State, who: nat, id: Id, row: Row, copy: Key)
    returns (longer: seq<Choice>, t: State)
    requires Run(schedule) == s && who < |s.actors|
    requires s.actors[who] == Repointing(id, Private, row, Some(copy), map[], true)
    requires id in s.rows && s.rows[id].renditions == row.renditions == map[] && row.poster.None?
    ensures Run(longer) == t
    ensures forall objects, rows, nextId, issued, actors :: At(s, objects, rows, nextId, issued, actors) ==>
              At(t, objects, rows[id := s.rows[id].(visibility := Private, storageKey := copy)], nextId, issued,
                 actors[who := Purging(Patch, {row.storageKey}, Done)])
  {
    longer, t := Next(schedule, s, Call(who, copy));
    assert KeysOf(row) == {row.storageKey};
    assert t.actors == s.actors[who := Purging(Patch, {row.storageKey}, Done)];
    assert s.rows[id].(visibility := Private, storageKey := copy, renditions := row.renditions)
        == s.rows[id].(visibility := Private, storageKey := copy);
  }

  const MOVED_CLIP := CLIP.(storageKey := MOVED, visibility := Private)
  const MOVED_FILM := FILM.(visibility := Private)

  /** A PATCH loads the row still `processing` ... */
  lemma PatchLoads() returns (schedule: seq<Choice>)
    ensures At(Run(schedule), {RAW}, map[0 := CLIP], 1, {RAW},
               [Done, Compressing(RAW, 0, false), Copying(0, Private, CLIP, true)])
  {
    schedule := AcceptedVideo();
    var s := Run(schedule);
    schedule, s := Next(schedule, s, Start(PatchLoading(0, Private, true)));
    assert s.actors == [Done, Compressing(RAW, 0, false), PatchLoading(0, Private, true)];
    schedule, s := Next(schedule, s, Call(2, RAW));
    assert s.actors == [Done, Compressing(RAW, 0, false), Copying(0, Private, CLIP, true)];
  }

  /** ... copies the raw object, re-points the row and deletes the original ... */
  lemma PatchFinishes() returns (schedule: seq<Choice>)
    ensures At(Run(schedule), {MOVED}, map[0 := MOVED_CLIP], 1, {RAW, MOVED},
               [Done, Compressing(RAW, 0, false), Done])
  {
    schedule := PatchLoads();
    var s := Run(schedule);
    schedule, s := Copied(schedule, s, 2, 0, CLIP, MOVED);
    assert At(s, {RAW, MOVED}, map[0 := CLIP], 1, {RAW, MOVED},
              [Done, Compressing(RAW, 0, false), Repointing(0, Private, CLIP, Some(MOVED), map[], true)]);
    schedule, s := Repointed(schedule, s, 2, 0, CLIP, MOVED);
    assert At(s, {RAW, MOVED}, map[0 := MOVED_CLIP], 1, {RAW, MOVED},
              [Done, Compressing(RAW, 0, false), Purging(Patch, {RAW}, Done)]);
    schedule, s := Purged(schedule, s, 2, Patch, RAW, Done);
    assert {RAW, MOVED} - {RAW} == {MOVED};
  }

  /** ... and mark_ready re-points it once more ... */
  lemma OutputReplacesTheCopy() returns (schedule: seq<Choice>)
    ensures At(Run(schedule), {MOVED, OUT}, map[0 := MOVED_FILM], 1, {RAW, MOVED, OUT},
               [Done, Purging(Worker, {RAW}, Done), Done])
  {
    schedule := PatchFinishes();
    var s := Run(schedule);
    schedule, s := Next(schedule, s, Call(1, OUT));
    assert s.actors == [Done, MarkingReady(RAW, 0, false, OUT), Done];
    assert s.objects == {MOVED, OUT} && s.issued == {RAW, MOVED, OUT};
    schedule, s := Next(schedule, s, Call(1, OUT));
    assert s.actors == [Done, Purging(Worker, {RAW}, Done), Done];
    assert s.rows == map[0 := MOVED_FILM];
  }

  /** ... which strands the rotated copy, with no call failing: a PATCH that runs through
      uninterrupted must still not meet a `processing` row.  The output is named by the
      visibility the task had loaded, so that the row, private by now, ends on a public key. */
  lemma PatchWhileProcessingStrandsTheCopy() returns (schedule: seq<Choice>)
    ensures Quiescent(Run(schedule))
    ensures var s := Run(schedule);
            && MOVED in s.objects && !PointedAt(s, MOVED) && s.undeleted == {}
            && 0 in s.rows && s.rows[0].visibility.Private? && !s.rows[0].storageKey.hidden
  {
    schedule := OutputReplacesTheCopy();
    var s := Run(schedule);
    schedule, s := Purged(schedule, s, 1, Worker, RAW, Done);
    assert {MOVED, OUT} - {RAW} == {MOVED, OUT};
    assert At(s, {MOVED, OUT}, map[0 := MOVED_FILM], 1, {RAW, MOVED, OUT}, [Done, Done, Done]);
    assert KeysOf(MOVED_FILM) == {OUT};
  }

  // ----- Two PATCHes of one row -------------------------------------------------------------

  const FIRST := Key(false, "images", "d", false, None, "webp")
  const COPY1 := Key(true, "images", "e", false, None, "webp")
  const COPY2 := Key(true, "images", "f", false, None, "webp")
  const PHOTO := Row("owner", Image, FIRST, map[], Ready, Public, None, None, false)
  const PHOTO1 := PHOTO.(storageKey := COPY1, visibility := Private)
  const PHOTO2 := PHOTO.(storageKey := COPY2, visibility := Private)

  lemma StoredPhoto() returns (schedule: seq<Choice>)
    ensures At(Run(schedule), {FIRST}, map[0 := PHOTO], 1, {FIRST}, [Done])
  {
    var s: State;
    schedule, s := Next([], Empty, Start(Storing(PHOTO, {}, false)));
    assert s.actors == [Storing(PHOTO, {}, false)];
    schedule, s := Next(schedule, s, Call(0, FIRST));
    assert s.actors == [StoringRenditions(PHOTO, FIRST, map[], {}, false)];
    assert s.objects == {FIRST} && s.issued == {FIRST};
    schedule, s := Next(schedule, s, Call(0, FIRST));
    assert s.actors == [Done] && s.rows == map[0 := PHOTO];
  }

  /** Both have loaded the row, ... */
  lemma BothLoad() returns (schedule: seq<Choice>)
    ensures At(Run(schedule), {FIRST}, map[0 := PHOTO], 1, {FIRST},
               [Done, Copying(0, Private, PHOTO, true), Copying(0, Private, PHOTO, true)])
  {
    schedule := StoredPhoto();
    var s := Run(schedule);
    schedule, s := Next(schedule, s, Start(PatchLoading(0, Private, true)));
    schedule, s := Next(schedule, s, Start(PatchLoading(0, Private, true)));
    assert s.actors == [Done, PatchLoading(0, Private, true), PatchLoading(0, Private, true)];
    schedule, s := Next(schedule, s, Call(1, FIRST));
    assert s.actors == [Done, Copying(0, Private, PHOTO, true), PatchLoading(0, Private, true)];
    schedule, s := Next(schedule, s, Call(2, FIRST));
    assert s.actors == [Done, Copying(0, Private, PHOTO, true), Copying(0, Private, PHOTO, true)];
  }

  /** ... made their copies, ... */
  lemma BothCopy() returns (schedule: seq<Choice>)
    ensures At(Run(schedule), {FIRST, COPY1, COPY2}, map[0 := PHOTO], 1, {FIRST, COPY1, COPY2},
               [Done, Repointing(0, Private, PHOTO, Some(COPY1), map[], true),
                Repointing(0, Private, PHOTO, Some(COPY2), map[], true)])
  {
    schedule := BothLoad();
    var s := Run(schedule);
    schedule, s := Copied(schedule, s, 1, 0, PHOTO, COPY1);
    assert At(s, {FIRST, COPY1}, map[0 := PHOTO], 1, {FIRST, COPY1},
              [Done, Repointing(0, Private, PHOTO, Some(COPY1), map[], true), Copying(0, Private, PHOTO, true)]);
    schedule, s := Copied(schedule, s, 2, 0, PHOTO, COPY2);
  }

  /** ... one runs on to its end, ... */
  lemma OneFinishes() returns (schedule: seq<Choice>)
    ensures At(Run(schedule), {COPY1, COPY2}, map[0 := PHOTO1], 1, {FIRST, COPY1, COPY2},
               [Done, Done, Repointing(0, Private, PHOTO, Some(COPY2), map[], true)])
  {
    schedule := BothCopy();
    var s := Run(schedule);
    schedule, s := Repointed(schedule, s, 1, 0, PHOTO, COPY1);
    assert At(s, {FIRST, COPY1, COPY2}, map[0 := PHOTO1], 1, {FIRST, COPY1, COPY2},
              [Done, Purging(Patch, {FIRST}, Done), Repointing(0, Private, PHOTO, Some(COPY2), map[], true)]);
    schedule, s := Purged(schedule, s, 1, Patch, FIRST, Done);
    assert {FIRST, COPY1, COPY2} - {FIRST} == {COPY1, COPY2};
  }

  /** ... and the other re-points the row once more, which strands the first one's copy,
      with no call failing. */
  lemma OverlappingPatchesStrandACopy() returns (schedule: seq<Choice>)
    ensures Quiescent(Run(schedule))
    ensures var s := Run(schedule); COPY1 in s.objects && !PointedAt(s, COPY1) && s.undeleted == {}
  {
    schedule := OneFinishes();
    var s := Run(schedule);
    schedule, s := Repointed(schedule, s, 2, 0, PHOTO, COPY2);
    assert At(s, {COPY1, COPY2}, map[0 := PHOTO2], 1, {FIRST, COPY1, COPY2},
              [Done, Done, Purging(Patch, {FIRST}, Done)]);
    schedule, s := Purged(schedule, s, 2, Patch, FIRST, Done);
    assert {COPY1, COPY2} - {FIRST} == {COPY1, COPY2};
    assert At(s, {COPY1, COPY2}, map[0 := PHOTO2], 1, {FIRST, COPY1, COPY2}, [Done, Done, Done]);
    assert KeysOf(PHOTO2) == {COPY2};
  }

  // ----- A PATCH of a poster row before it is linked -------------------------------------------

  const IMAGE := Key(false, "posters", "h", false, None, "webp")
  const HIDDEN := Key(true, "posters", "i", false, None, "webp")
  const STILL := Row("owner", Image, IMAGE, map[], Ready, Public, None, None, false)
  const STILL1 := STILL.(storageKey := HIDDEN, visibility := Private)

  /** A compression run stores its output and records it ... */
  lemma RecordedFilm() returns (schedule: seq<Choice>)
    ensures At(Run(schedule), {RAW, OUT}, map[0 := FILM], 1, {RAW, OUT}, [Done, Purging(Worker, {RAW}, Done)])
  {
    schedule := AcceptedVideo();
    var s := Run(schedule);
    schedule, s := Next(schedule, s, Call(1, OUT));
    assert s.actors == [Done, MarkingReady(RAW, 0, false, OUT)];
    assert s.objects == {RAW, OUT} && s.issued == {RAW, OUT};
    schedule, s := Next(schedule, s, Call(1, OUT));
    assert s.actors == [Done, Purging(Worker, {RAW}, Done)];
    assert s.rows == map[0 := FILM];
  }

  /** ... and finishes. */
  lemma StoredFilm() returns (schedule: seq<Choice>)
    ensures At(Run(schedule), {OUT}, map[0 := FILM], 1, {RAW, OUT}, [Done, Done])
  {
    schedule := RecordedFilm();
    var s := Run(schedule);
    schedule, s := Purged(schedule, s, 1, Worker, RAW, Done);
    assert {RAW, OUT} - {RAW} == {OUT};
  }

  /** A poster task has stored its image ... */
  lemma StoredImage() returns (schedule: seq<Choice>)
    ensures At(Run(schedule), {OUT, IMAGE}, map[0 := FILM], 1, {RAW, OUT, IMAGE},
               [Done, Done, PosterRecording(0, FILM, IMAGE, {})])
  {
    schedule := StoredFilm();
    var s := Run(schedule);
    schedule, s := Next(schedule, s, Start(PosterLoading(0)));
    assert s.actors == [Done, Done, PosterLoading(0)];
    schedule, s := Next(schedule, s, Call(2, IMAGE));
    assert s.actors == [Done, Done, PosterStoring(0, FILM, {})];
    schedule, s := Next(schedule, s, Call(2, IMAGE));
    assert s.actors == [Done, Done, PosterRecording(0, FILM, IMAGE, {})];
  }

  /** ... and made its row, but not yet linked it. */
  lemma UnlinkedPoster() returns (schedule: seq<Choice>)
    ensures At(Run(schedule), {OUT, IMAGE}, map[0 := FILM, 1 := STILL], 2, {RAW, OUT, IMAGE},
               [Done, Done, Linking(0, 1, IMAGE, {})])
  {
    schedule := StoredImage();
    var s := Run(schedule);
    schedule, s := Next(schedule, s, Call(2, IMAGE));
    assert s.actors == [Done, Done, Linking(0, 1, IMAGE, {})];
    assert s.rows == map[0 := FILM, 1 := STILL];
  }

  /** A PATCH loads that row ... */
  lemma PosterIsLoaded() returns (schedule: seq<Choice>)
    ensures At(Run(schedule), {OUT, IMAGE}, map[0 := FILM, 1 := STILL], 2, {RAW, OUT, IMAGE},
               [Done, Done, Linking(0, 1, IMAGE, {}), Copying(1, Private, STILL, true)])
  {
    schedule := UnlinkedPoster();
    var s := Run(schedule);
    schedule, s := Next(schedule, s, Start(PatchLoading(1, Private, true)));
    assert s.actors == [Done, Done, Linking(0, 1, IMAGE, {}), PatchLoading(1, Private, true)];
    schedule, s := Next(schedule, s, Call(3, IMAGE));
    assert s.actors == [Done, Done, Linking(0, 1, IMAGE, {}), Copying(1, Private, STILL, true)];
  }

  /** ... and moves it ... */
  lemma PosterMoves() returns (schedule: seq<Choice>)
    ensures At(Run(schedule), {OUT, HIDDEN}, map[0 := FILM, 1 := STILL1], 2, {RAW, OUT, IMAGE, HIDDEN},
               [Done, Done, Linking(0, 1, IMAGE, {}), Done])
  {
    schedule := PosterIsLoaded();
    var s := Run(schedule);
    schedule, s := Copied(schedule, s, 3, 1, STILL, HIDDEN);
    assert At(s, {OUT, IMAGE, HIDDEN}, map[0 := FILM, 1 := STILL], 2, {RAW, OUT, IMAGE, HIDDEN},
              [Done, Done, Linking(0, 1, IMAGE, {}), Repointing(1, Private, STILL, Some(HIDDEN), map[], true)]);
    schedule, s := Repointed(schedule, s, 3, 1, STILL, HIDDEN);
    assert At(s, {OUT, IMAGE, HIDDEN}, map[0 := FILM, 1 := STILL1], 2, {RAW, OUT, IMAGE, HIDDEN},
              [Done, Done, Linking(0, 1, IMAGE, {}), Purging(Patch, {IMAGE}, Done)]);
    schedule, s := Purged(schedule, s, 3, Patch, IMAGE, Done);
    assert {OUT, IMAGE, HIDDEN} - {IMAGE} == {OUT, HIDDEN};
  }

  /** ... the link fails ... */
  lemma LinkFails() returns (schedule: seq<Choice>)
    ensures At(Run(schedule), {OUT, HIDDEN}, map[0 := FILM, 1 := STILL1], 2, {RAW, OUT, IMAGE, HIDDEN},
               [Done, Done, PosterUnrecording(1, IMAGE, {}), Done])
  {
    schedule := PosterMoves();
    var s := Run(schedule);
    schedule, s := Next(schedule, s, Act(2, Raise, IMAGE, "", STILL));
    assert At(s, {OUT, HIDDEN}, map[0 := FILM, 1 := STILL1], 2, {RAW, OUT, IMAGE, HIDDEN},
              [Done, Done, Purging(Poster, {IMAGE}, PosterUnrecording(1, IMAGE, {})), Done]);
    schedule, s := Purged(schedule, s, 2, Poster, IMAGE, PosterUnrecording(1, IMAGE, {}));
    assert {OUT, HIDDEN} - {IMAGE} == {OUT, HIDDEN};
  }

  /** ... and the task's roll-back drops a row whose object it does not know ... */
  lemma RollBackDropsTheRow() returns (schedule: seq<Choice>)
    ensures At(Run(schedule), {OUT, HIDDEN}, map[0 := FILM], 2, {RAW, OUT, IMAGE, HIDDEN},
               [Done, Done, Purging(Poster, {}, Done), Done])
  {
    schedule := LinkFails();
    var s := Run(schedule);
    schedule, s := Next(schedule, s, Call(2, IMAGE));
    assert s.actors == [Done, Done, Purging(Poster, {}, Done), Done];
    assert s.rows == map[0 := FILM];
  }

  /** ... so that the rotated copy is stranded although every delete call succeeded. */
  lemma PatchedPosterStrandsTheCopy() returns (schedule: seq<Choice>)
    ensures Quiescent(Run(schedule))
    ensures var s := Run(schedule); HIDDEN in s.objects && !PointedAt(s, HIDDEN) && s.undeleted == {}
  {
    schedule := RollBackDropsTheRow();
    var s := Run(schedule);
    schedule, s := Next(schedule, s, Call(2, IMAGE));
    assert s.actors == [Done, Done, Done, Done];
    assert KeysOf(FILM) == {OUT};
  }
}
