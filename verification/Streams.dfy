/** Bodies read chunk by chunk: into memory, onto disk under a cap, and from disk into
    local storage. */
module Streams {
  import opened Records

  const MEGABYTE := 0x10_0000

  ghost function Concat(chunks: seq<Bytes>): Bytes {
    if chunks == [] then [] else Concat(chunks[..|chunks| - 1]) + chunks[|chunks| - 1]
  }

  lemma ConcatNext(chunks: seq<Bytes>, i: nat)
    requires i < |chunks|
    ensures Concat(chunks[..i + 1]) == Concat(chunks[..i]) + chunks[i]
  {
    assert chunks[..i + 1][..i] == chunks[..i];
  }

  lemma {:induction false} ConcatGrows(chunks: seq<Bytes>, i: nat)
    requires i <= |chunks|
    ensures Concat(chunks[..i]) <= Concat(chunks)
    decreases |chunks| - i
  {
    if i < |chunks| {
      ConcatNext(chunks, i);
      if i + 1 < |chunks| { ConcatGrows(chunks, i + 1); } else { assert chunks[..i + 1] == chunks; }
      assert Concat(chunks[..i]) <= Concat(chunks[..i + 1]);
    } else {
      assert chunks[..i] == chunks;
    }
  }

  /** What a request body does: its chunks, none empty; after which of them the client is
      seen to have gone; and whether reading raises after the last of them. */
  datatype Body = Body(chunks: seq<Bytes>, gone: seq<bool>, raises: bool)

  ghost predicate ProperBody(body: Body) {
    |body.gone| == |body.chunks| && forall i :: 0 <= i < |body.chunks| ==> body.chunks[i] != []
  }

  /** The cap is only looked at when a chunk arrives. */
  ghost predicate Fits(body: Body, cap: int) {
    body.chunks == [] || |Concat(body.chunks)| <= cap
  }

  ghost predicate StaysConnected(body: Body) {
    forall i :: 0 <= i < |body.gone| ==> !body.gone[i]
  }

  /** Where reading stops early: the first chunk after which the client is gone or the cap
      is passed. */
  ghost predicate StopsAt(body: Body, cap: int, i: int)
    requires ProperBody(body)
  {
    && 0 <= i < |body.chunks|
    && (forall j :: 0 <= j < i ==> !body.gone[j])
    && (i > 0 ==> |Concat(body.chunks[..i])| <= cap)
    && (body.gone[i] || |Concat(body.chunks[..i + 1])| > cap)
  }

  /** Whatever stops the reading rules out success. */
  lemma StopIsFinal(body: Body, cap: int, i: int)
    requires ProperBody(body) && StopsAt(body, cap, i)
    ensures !Fits(body, cap) || !StaysConnected(body)
  {
    ConcatGrows(body.chunks, i + 1);
  }

  datatype Stop = TooLarge | Disconnected | ReadFailed | WriteFailed

  /** The stop is the body's own first one. */
  ghost predicate OwnStop(body: Body, cap: int, why: Stop)
    requires ProperBody(body)
  {
    exists i :: StopsAt(body, cap, i) && why == if body.gone[i] then Disconnected else TooLarge
  }

  datatype Read = Content(bytes: Bytes) | Stopped(why: Stop)

  /** _read_capped: the whole body exactly when it fits, the client stays and reading does
      not raise. */
  method ReadCapped(body: Body, cap: int) returns (r: Read)
    requires ProperBody(body)
    ensures r.Content? <==> Fits(body, cap) && StaysConnected(body) && !body.raises
    ensures r.Content? ==> r.bytes == Concat(body.chunks)
    ensures r == Stopped(ReadFailed) <==> Fits(body, cap) && StaysConnected(body) && body.raises
    ensures r.Stopped? && !r.why.ReadFailed? ==> OwnStop(body, cap, r.why)
  {
    var content := [];
    for i := 0 to |body.chunks|
      invariant content == Concat(body.chunks[..i])
      invariant i > 0 ==> |content| <= cap
      invariant forall j :: 0 <= j < i ==> !body.gone[j]
    {
      ConcatNext(body.chunks, i);
      if body.gone[i] { StopIsFinal(body, cap, i); return Stopped(Disconnected); }
      content := content + body.chunks[i];
      if |content| > cap { StopIsFinal(body, cap, i); return Stopped(TooLarge); }
    }
    assert body.chunks[..|body.chunks|] == body.chunks;
    r := if body.raises then Stopped(ReadFailed) else Content(content);
  }

  // ----- Temp files ----------------------------------------------------------------------------

  /** Files by path.  `most` is the largest size the file being streamed has had. */
  class Disk {
    var files: map<nat, Bytes>
    ghost var most: nat
    ghost var faults: nat  // writes that raised so far

    constructor ()
      ensures files == map[] && most == 0 && faults == 0
    {
      files, most, faults := map[], 0, 0;
    }

    method MakeTemp(path: nat)
      requires path !in files
      modifies this`files, this`most
      ensures files == old(files)[path := []] && most == 0
    {
      files, most := files[path := []], 0;
    }

    method Append(path: nat, data: Bytes) returns (ok: bool)
      requires path in files
      modifies this
      ensures files == if ok then old(files)[path := old(files)[path] + data] else old(files)
      ensures most == if ok && |files[path]| > old(most) then |files[path]| else old(most)
      ensures faults == old(faults) + if ok then 0 else 1
    {
      ok := *;
      if ok {
        files := files[path := files[path] + data];
        most := if |files[path]| > most then |files[path]| else most;
      } else {
        faults := faults + 1;
      }
    }

    method Unlink(path: nat)
      modifies this`files
      ensures files == old(files) - {path}
    {
      files := files - {path};
    }
  }

  /** An incremental SHA-256: what it has absorbed so far. */
  class Hasher {
    var absorbed: Bytes

    constructor ()
      ensures absorbed == []
    {
      absorbed := [];
    }

    method Update(data: Bytes)
      modifies this
      ensures absorbed == old(absorbed) + data
    {
      absorbed := absorbed + data;
    }
  }

  datatype Streamed = Stored(path: nat, size: nat, digest: string) | Aborted(why: Stop)

  /** One turn of the loop: `stop` says why it ends early. */
  method ReceiveChunk(disk: Disk, hasher: Hasher, path: nat, chunk: Bytes, gone: bool, size: nat, cap: int)
    returns (stop: Option<Stop>, newSize: nat)
    requires path in disk.files && |disk.files[path]| == size && disk.most <= if cap > 0 then cap else 0
    modifies disk, hasher
    ensures disk.most <= if cap > 0 then cap else 0
    ensures disk.faults == old(disk.faults) + if stop == Some(WriteFailed) then 1 else 0
    ensures stop.None? ==>
              && !gone && newSize == size + |chunk| <= cap && hasher.absorbed == old(hasher.absorbed) + chunk
              && disk.files == old(disk.files)[path := old(disk.files)[path] + chunk]
    ensures stop.Some? ==> disk.files == old(disk.files) && stop.value != ReadFailed
    ensures stop == Some(Disconnected) <==> gone
    ensures stop == Some(TooLarge) <==> !gone && size + |chunk| > cap
  {
    newSize := size;
    if gone { return Some(Disconnected), size; }
    newSize := size + |chunk|;
    if newSize > cap { return Some(TooLarge), newSize; }
    var written := disk.Append(path, chunk);
    if !written { return Some(WriteFailed), newSize; }
    hasher.Update(chunk);
    stop := None;
  }

  /** _stream_capped_to_temp.  It succeeds exactly for a body that fits, whose client stays,
      and that is read and written without a raise; then file, size and digest are those of
      the whole body.  Every abort removes the file, and never more than the cap is on disk. */
  method StreamCappedToTemp(disk: Disk, path: nat, body: Body, cap: int, sha: Bytes -> string) returns (r: Streamed)
    requires ProperBody(body) && path !in disk.files
    modifies disk
    ensures r.Stored? <==>
              Fits(body, cap) && StaysConnected(body) && !body.raises && disk.faults == old(disk.faults)
    ensures r.Stored? ==>
              && disk.files == old(disk.files)[path := Concat(body.chunks)]
              && r == Stored(path, |Concat(body.chunks)|, sha(Concat(body.chunks)))
    ensures r.Aborted? ==> disk.files == old(disk.files)
    ensures r == Aborted(WriteFailed) <==> disk.faults > old(disk.faults)
    ensures r == Aborted(ReadFailed) ==> Fits(body, cap) && StaysConnected(body) && body.raises
    ensures r == Aborted(TooLarge) || r == Aborted(Disconnected) ==> OwnStop(body, cap, r.why)
    ensures disk.most <= if cap > 0 then cap else 0
  {
    ghost var before := disk.files;
    var hasher := new Hasher();
    var size := 0;
    disk.MakeTemp(path);
    for i := 0 to |body.chunks|
      invariant disk.files == before[path := hasher.absorbed] && path in disk.files
      invariant disk.files[path] == hasher.absorbed
      invariant disk.most <= (if cap > 0 then cap else 0) && disk.faults == old(disk.faults)
      invariant hasher.absorbed == Concat(body.chunks[..i]) && size == |hasher.absorbed|
      invariant (i > 0 ==> size <= cap) && forall j :: 0 <= j < i ==> !body.gone[j]
    {
      ConcatNext(body.chunks, i);
      var stop;
      stop, size := ReceiveChunk(disk, hasher, path, body.chunks[i], body.gone[i], size, cap);
      if stop.Some? {
        if !stop.value.WriteFailed? { StopIsFinal(body, cap, i); }
        disk.Unlink(path);
        assert disk.files == before;
        return Aborted(stop.value);
      }
    }
    assert body.chunks[..|body.chunks|] == body.chunks;
    if body.raises {
      disk.Unlink(path);
      assert disk.files == before;
      return Aborted(ReadFailed);
    }
    r := Stored(path, size, sha(hasher.absorbed));
  }

  // ----- Into local storage --------------------------------------------------------------------

  /** LocalStorage.upload_from_path: unless a write raises, the object gets the file's bytes,
      whatever they are cut into; a write that raises leaves a prefix of them behind. */
  method UploadFromPath(disk: Disk, path: nat, target: nat) returns (ok: bool, size: nat)
    requires path in disk.files && target != path
    modifies disk
    ensures disk.files.Keys == old(disk.files).Keys + {target}
    ensures forall p :: p in old(disk.files) && p != target ==> disk.files[p] == old(disk.files)[p]
    ensures ok <==> disk.faults == old(disk.faults)
    ensures ok ==> disk.files[target] == old(disk.files)[path] && size == |old(disk.files)[path]|
    ensures disk.files[target] <= old(disk.files)[path]
  {
    ghost var source := disk.files[path];
    size := 0;
    disk.Unlink(target);
    disk.MakeTemp(target);
    while size < |disk.files[path]|
      invariant disk.files.Keys == old(disk.files).Keys + {target}
      invariant forall p :: p in old(disk.files) && p != target ==> disk.files[p] == old(disk.files)[p]
      invariant disk.faults == old(disk.faults)
      invariant 0 <= size <= |source| && disk.files[target] == source[..size]
      decreases |source| - size
    {
      var left := |disk.files[path]| - size;
      var chunk := disk.files[path][size..size + if left < MEGABYTE then left else MEGABYTE];
      ok := disk.Append(target, chunk);
      if !ok { return; }
      size := size + |chunk|;
      assert source[..size] == source[..size - |chunk|] + chunk;
    }
    assert source[..size] == source;
    ok := true;
  }
}
