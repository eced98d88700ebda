/** Content-type validation of generic uploads: magic-byte sniffers, per-type validators
    and the decision that combines them. */
module FileValidation {
  import opened Records
  import opened TextScanner

  /** The allow-list of media types. */
  datatype Mime =
    | Pdf | TextPlain | TextCsv | Json | Zip | Gzip | Tar | OctetStream
    | AudioMpeg | AudioWav | AudioOgg | AudioFlac | AudioAac | AudioMp4 | AudioWebm
    | VideoMp4 | VideoWebm | VideoQuicktime | VideoMatroska | VideoOgg
    | ImagePng | ImageJpeg | ImageGif | ImageWebp | ImageAvif

  /** A declared content type after parameters, case and aliases are normalised. */
  datatype Declared = Unset | Allowed(mime: Mime) | NotAllowed

  datatype Verdict = Ok(mime: Mime) | Rejected

  // ----- Reading a header --------------------------------------------------------------------

  predicate StartsWith(h: Bytes, p: Bytes) {
    |p| <= |h| && h[..|p|] == p
  }

  /** h[a..b] == p, where a slice past the end is shorter. */
  predicate SliceIs(h: Bytes, a: nat, p: Bytes) {
    a + |p| <= |h| && h[a..a + |p|] == p
  }

  predicate Ftyp(h: Bytes) {
    |h| >= 12 && SliceIs(h, 4, Ascii("ftyp"))
  }

  predicate Brand(h: Bytes, brand: string)
    requires |brand| == 4
  {
    SliceIs(h, 8, Ascii(brand))
  }

  predicate IsPdf(h: Bytes) { StartsWith(h, Ascii("%PDF-")) }

  predicate IsMp3(h: Bytes) {
    StartsWith(h, Ascii("ID3"))
    || (|h| >= 2 && h[0] == 0xff && h[1] & 0xe0 == 0xe0 && h[1] & 0x18 != 0x08)
  }

  predicate IsAac(h: Bytes) {
    |h| >= 2 && h[0] == 0xff && (h[1] & 0xf6 == 0xf0 || h[1] & 0xf6 == 0xf1)
  }

  predicate IsRiff(h: Bytes, form: string)
    requires |form| == 4
  {
    StartsWith(h, Ascii("RIFF")) && SliceIs(h, 8, Ascii(form))
  }

  predicate IsOgg(h: Bytes) { StartsWith(h, Ascii("OggS")) }

  predicate IsFlac(h: Bytes) { StartsWith(h, Ascii("fLaC")) }

  predicate IsZip(h: Bytes) {
    StartsWith(h, [0x50, 0x4b, 3, 4]) || StartsWith(h, [0x50, 0x4b, 5, 6]) || StartsWith(h, [0x50, 0x4b, 7, 8])
  }

  predicate IsGzip(h: Bytes) { StartsWith(h, [0x1f, 0x8b]) }

  predicate IsTar(h: Bytes) { SliceIs(h, 257, Ascii("ustar")) }

  predicate IsPng(h: Bytes) { StartsWith(h, [0x89, 0x50, 0x4e, 0x47, 0x0d, 0x0a, 0x1a, 0x0a]) }

  predicate IsJpeg(h: Bytes) { StartsWith(h, [0xff, 0xd8, 0xff]) }

  predicate IsGif(h: Bytes) { StartsWith(h, Ascii("GIF87a")) || StartsWith(h, Ascii("GIF89a")) }

  predicate IsEbml(h: Bytes) { StartsWith(h, [0x1a, 0x45, 0xdf, 0xa3]) }

  predicate IsM4a(h: Bytes) { Ftyp(h) && (Brand(h, "M4A ") || Brand(h, "m4a ")) }

  predicate IsAvif(h: Bytes) { Ftyp(h) && (Brand(h, "avif") || Brand(h, "avis")) }

  predicate HasFlatBox(h: Bytes) {
    SliceIs(h, 4, Ascii("moov")) || SliceIs(h, 4, Ascii("mdat")) ||
    SliceIs(h, 4, Ascii("wide")) || SliceIs(h, 4, Ascii("free"))
  }

  predicate IsQuicktime(h: Bytes) { (Ftyp(h) && Brand(h, "qt  ")) || HasFlatBox(h) }

  predicate IsMp4(h: Bytes) { Ftyp(h) && !Brand(h, "avif") && !Brand(h, "avis") && !Brand(h, "qt  ") }

  // ----- Validators --------------------------------------------------------------------------------

  ghost predicate HasValidator(m: Mime) {
    !(m.TextPlain? || m.TextCsv? || m.Json? || m.OctetStream?)
  }

  /** _verify_magic_bytes_for_type does not raise: a type without validator always passes. */
  predicate Verifies(h: Bytes, m: Mime) {
    match m
    case Pdf => IsPdf(h)
    case ImagePng => IsPng(h)
    case ImageJpeg => IsJpeg(h)
    case ImageGif => IsGif(h)
    case ImageWebp => IsRiff(h, "WEBP")
    case ImageAvif => IsAvif(h)
    case Zip => IsZip(h)
    case Gzip => IsGzip(h)
    case Tar => IsTar(h)
    case AudioMpeg => IsMp3(h)
    case AudioWav => IsRiff(h, "WAVE")
    case AudioOgg => IsOgg(h)
    case AudioFlac => IsFlac(h)
    case AudioAac => IsAac(h)
    case AudioMp4 => IsM4a(h)
    case AudioWebm => IsEbml(h)
    case VideoMp4 => IsMp4(h)
    case VideoWebm => IsEbml(h)
    case VideoMatroska => IsEbml(h)
    case VideoQuicktime => IsQuicktime(h)
    case VideoOgg => IsOgg(h)
    case _ => true
  }

  // ----- Sniffers --------------------------------------------------------------------------------

  function Or(a: Option<Mime>, b: Option<Mime>): Option<Mime> {
    if a.Some? then a else b
  }

  /** Whatever is sniffed has a validator, and it accepts the header. */
  ghost predicate Agrees(h: Bytes, sniffed: Option<Mime>) {
    sniffed.Some? ==> HasValidator(sniffed.value) && Verifies(h, sniffed.value)
  }

  function SniffAudio(h: Bytes): (r: Option<Mime>)
    ensures Agrees(h, r)
  {
    if IsMp3(h) then Some(AudioMpeg)
    else if IsRiff(h, "WAVE") then Some(AudioWav)
    else if IsOgg(h) then Some(AudioOgg)
    else if IsFlac(h) then Some(AudioFlac)
    else if IsAac(h) then Some(AudioAac)
    else None
  }

  function SniffArchive(h: Bytes): (r: Option<Mime>)
    ensures Agrees(h, r)
  {
    if IsZip(h) then Some(Zip) else if IsGzip(h) then Some(Gzip) else if IsTar(h) then Some(Tar) else None
  }

  function SniffImage(h: Bytes): (r: Option<Mime>)
    ensures Agrees(h, r)
  {
    if IsPng(h) then Some(ImagePng)
    else if IsJpeg(h) then Some(ImageJpeg)
    else if IsGif(h) then Some(ImageGif)
    else if IsRiff(h, "WEBP") then Some(ImageWebp)
    else None
  }

  function SniffIsobmff(h: Bytes): (r: Option<Mime>)
    ensures Agrees(h, r)
  {
    if !Ftyp(h) then None
    else if Brand(h, "M4A ") || Brand(h, "m4a ") then Some(AudioMp4)
    else if Brand(h, "avif") || Brand(h, "avis") then Some(ImageAvif)
    else if Brand(h, "qt  ") then Some(VideoQuicktime)
    else Some(VideoMp4)
  }

  function SniffVideo(h: Bytes): (r: Option<Mime>)
    ensures Agrees(h, r)
  {
    if IsEbml(h) then Some(VideoWebm) else if HasFlatBox(h) then Some(VideoQuicktime) else None
  }

  function SniffMagicType(h: Bytes): (r: Option<Mime>)
    ensures Agrees(h, r)
  {
    if IsPdf(h) then Some(Pdf)
    else Or(SniffAudio(h), Or(SniffArchive(h), Or(SniffImage(h), Or(SniffIsobmff(h), SniffVideo(h)))))
  }

  /** The order in which the sniffers ask; what comes under 99 is never their answer. */
  ghost function Place(m: Mime): nat {
    match m
    case Pdf => 0
    case AudioMpeg => 1
    case AudioWav => 2
    case AudioOgg => 3
    case AudioFlac => 4
    case Zip => 5
    case Gzip => 6
    case Tar => 7
    case ImagePng => 8
    case ImageJpeg => 9
    case ImageGif => 10
    case ImageWebp => 11
    case AudioMp4 => 12
    case ImageAvif => 13
    case VideoMp4 => 14
    case VideoWebm => 15
    case VideoQuicktime => 15
    case _ => 99
  }

  lemma SniffedEarly(h: Bytes, m: Mime)
    requires Verifies(h, m) && Place(m) < 8
    ensures SniffMagicType(h).Some? && Place(SniffMagicType(h).value) <= Place(m)
  {
    AacIsNeverSniffed(h);
  }

  lemma AudioPlaces(h: Bytes)
    ensures SniffAudio(h).Some? ==> Place(SniffAudio(h).value) < 5
  {
    AacIsNeverSniffed(h);
  }

  lemma EarlyPlaces(h: Bytes)
    ensures SniffAudio(h).Some? ==> Place(SniffAudio(h).value) < 5
    ensures SniffArchive(h).Some? ==> Place(SniffArchive(h).value) < 8
    ensures SniffImage(h).Some? ==> Place(SniffImage(h).value) < 12
  {
    AudioPlaces(h);
  }

  lemma SniffedLate(h: Bytes, m: Mime)
    requires Verifies(h, m) && 8 <= Place(m) < 99
    ensures SniffMagicType(h).Some? && Place(SniffMagicType(h).value) <= Place(m)
  {
    EarlyPlaces(h);
    if Place(m) < 12 { SniffedImage(h, m); } else { SniffedContainer(h, m); }
  }

  lemma SniffedImage(h: Bytes, m: Mime)
    requires Verifies(h, m) && 8 <= Place(m) < 12
    ensures SniffImage(h).Some? && Place(SniffImage(h).value) <= Place(m)
  {
  }

  lemma SniffedContainer(h: Bytes, m: Mime)
    requires Verifies(h, m) && 12 <= Place(m) < 99
    ensures var r := Or(SniffIsobmff(h), SniffVideo(h)); r.Some? && Place(r.value) <= Place(m)
  {
  }

  lemma SniffedNoLater(h: Bytes, m: Mime)
    requires Verifies(h, m) && Place(m) < 99
    ensures SniffMagicType(h).Some? && Place(SniffMagicType(h).value) <= Place(m)
  {
    if Place(m) < 8 { SniffedEarly(h, m); } else { SniffedLate(h, m); }
  }

  /** A sniffer answers the first type in its order that the header verifies as; ... */
  lemma SniffsTheFirst(h: Bytes, m: Mime)
    requires Place(m) < 15
    ensures SniffMagicType(h) == Some(m) <==>
              Verifies(h, m) && forall q: Mime :: Place(q) < Place(m) ==> !Verifies(h, q)
  {
    if SniffMagicType(h) == Some(m) {
      forall q: Mime | Place(q) < Place(m) ensures !Verifies(h, q) {
        if Verifies(h, q) { SniffedNoLater(h, q); }
      }
    } else if Verifies(h, m) {
      SniffedNoLater(h, m);
      assert Verifies(h, SniffMagicType(h).value);
    }
  }

  lemma BoxesDiffer()
    ensures Ascii("ftyp")[0] != Ascii("moov")[0] && Ascii("ftyp")[0] != Ascii("mdat")[0]
  {
  }

  lemma MoreBoxesDiffer()
    ensures Ascii("ftyp")[0] != Ascii("wide")[0] && Ascii("ftyp")[1] != Ascii("free")[1]
  {
  }

  lemma FtypIsNoFlatBox(h: Bytes)
    ensures Ftyp(h) ==> !HasFlatBox(h)
  {
    BoxesDiffer();
    MoreBoxesDiffer();
    if Ftyp(h) { assert h[4..8][0] == Ascii("ftyp")[0] && h[4..8][1] == Ascii("ftyp")[1]; }
  }

  /** None of the types asked about before the last two. */
  ghost predicate NothingElse(h: Bytes) {
    forall q: Mime :: Place(q) < 15 ==> !Verifies(h, q)
  }

  lemma NothingElseSniffed(h: Bytes)
    ensures NothingElse(h) <==> SniffMagicType(h).None? || Place(SniffMagicType(h).value) >= 15
  {
    if SniffMagicType(h).None? || Place(SniffMagicType(h).value) >= 15 {
      forall q: Mime | Place(q) < 15 ensures !Verifies(h, q) {
        if Verifies(h, q) { SniffedNoLater(h, q); }
      }
    } else {
      assert Verifies(h, SniffMagicType(h).value);
    }
  }

  /** An `ftyp` box that is no audio, AVIF or MP4 is QuickTime. */
  lemma FtypIsQuicktime(h: Bytes)
    requires Ftyp(h) && !Verifies(h, VideoMp4) && !Verifies(h, ImageAvif)
    ensures Brand(h, "qt  ") && Verifies(h, VideoQuicktime)
  {
  }

  lemma SniffedVideo(h: Bytes)
    requires SniffMagicType(h).None? || Place(SniffMagicType(h).value) >= 15
    ensures SniffMagicType(h) == if Ftyp(h) && Brand(h, "qt  ") then Some(VideoQuicktime) else SniffVideo(h)
  {
    EarlyPlaces(h);
    assert SniffIsobmff(h).Some? ==> SniffIsobmff(h).value in {AudioMp4, ImageAvif, VideoQuicktime, VideoMp4};
  }

  lemma LastTwo(h: Bytes)
    requires NothingElse(h)
    ensures SniffMagicType(h) == if Ftyp(h) then Some(VideoQuicktime) else SniffVideo(h)
    ensures Ftyp(h) ==> Verifies(h, VideoQuicktime)
  {
    NothingElseSniffed(h);
    SniffedVideo(h);
    assert !Verifies(h, VideoMp4) && !Verifies(h, ImageAvif);
    if Ftyp(h) { FtypIsQuicktime(h); }
  }

  /** ... of the two it asks about last, WebM needs a header without an `ftyp` box. */
  lemma SniffsTheLast(h: Bytes)
    ensures SniffMagicType(h) == Some(VideoWebm) <==> Verifies(h, VideoWebm) && !Ftyp(h) && NothingElse(h)
    ensures SniffMagicType(h) == Some(VideoQuicktime) <==>
              Verifies(h, VideoQuicktime) && (Ftyp(h) || !Verifies(h, VideoWebm)) && NothingElse(h)
  {
    NothingElseSniffed(h);
    if NothingElse(h) {
      LastTwo(h);
      FtypIsNoFlatBox(h);
      assert !Ftyp(h) ==> (Verifies(h, VideoQuicktime) <==> HasFlatBox(h));
    }
  }

  /** A type has no validator exactly if even an empty file verifies as it. */
  lemma NoValidator(m: Mime)
    ensures HasValidator(m) <==> !Verifies([], m)
  {
  }

  /** A header no sniffer recognises is one no validator accepts. */
  lemma VerifiedIsSniffed(h: Bytes, m: Mime)
    requires HasValidator(m) && Verifies(h, m)
    ensures SniffMagicType(h).Some?
  {
  }

  /** Every AAC header is also an MP3 header, so sniffing never answers AAC. */
  lemma AacIsNeverSniffed(h: Bytes)
    ensures IsAac(h) ==> IsMp3(h)
    ensures SniffMagicType(h) != Some(AudioAac)
  {
    if IsAac(h) { assert h[1] & 0xe0 == 0xe0 && h[1] & 0x18 != 0x08; }
  }

  // ----- The decision -----------------------------------------------------------------------------

  predicate IsText(m: Mime) {
    m.TextPlain? || m.TextCsv? || m.Json?
  }

  /** _guess_content_type_from_filename, `guess` being what mimetypes makes of the name. */
  function Guess(guess: Declared, header: Bytes): Option<Mime> {
    if guess.Allowed? && Verifies(header, guess.mime) then Some(guess.mime) else None
  }

  function ValidateFileContent(header: Bytes, declared: Declared, guess: Declared): Verdict {
    if IsDangerousContent(header) then Rejected
    else if declared.Unset? || declared == Allowed(OctetStream) then
      if SniffMagicType(header).Some? then Ok(SniffMagicType(header).value)
      else if Guess(guess, header).Some? then Ok(Guess(guess, header).value)
      else Ok(OctetStream)
    else if declared.NotAllowed? then Rejected
    else if !Verifies(header, declared.mime) then Rejected
    else if IsText(declared.mime) && HasTag(header) then Rejected
    else Ok(declared.mime)
  }

  /** The first 8192 bytes of a file. */
  ghost predicate IsSample(sample: Bytes, file: Bytes) {
    sample <= file && |sample| == if |file| < 8192 then |file| else 8192
  }

  /** What is accepted of a file whose type the caller has declared. */
  ghost predicate Acceptable(sample: Bytes, file: Bytes, m: Mime) {
    && !Dangerous(sample) && Verifies(sample, m)
    && (m in {TextPlain, TextCsv, Json} ==> !Suspicious(file))
  }

  /** A tag in the sample is a tag in the file. */
  lemma TagInSample(sample: Bytes, file: Bytes)
    requires sample <= file && HasTag(sample)
    ensures Suspicious(file)
  {
    var i :| 0 <= i < |sample| - 1 && sample[i] == 0x3c && TagChar(sample[i + 1]);
    assert OpensTag(file, i);
  }

  /** validate_file_from_path: the sample decides the type, and a text type has the whole
      file scanned.  A type off the allow-list is rejected; a declared type is accepted as
      it is or not at all; octet-stream counts as not declared, and then the answer is the
      sniffed type, else a text type the name suggests, else octet-stream. */
  method ValidateFileFromPath(file: Bytes, declared: Declared, guess: Declared)
    returns (r: Verdict, ghost sample: Bytes)
    ensures IsSample(sample, file)
    ensures r.Ok? ==> Verifies(sample, r.mime) && !Dangerous(sample)
    ensures r.Ok? && r.mime in {TextPlain, TextCsv, Json} ==> !Suspicious(file)
    ensures declared.NotAllowed? ==> r.Rejected?
    ensures declared.Allowed? && declared.mime != OctetStream ==>
              r == if Acceptable(sample, file, declared.mime) then Ok(declared.mime) else Rejected
    ensures declared.Unset? || declared == Allowed(OctetStream) ==>
              r == if Dangerous(sample) then Rejected
                   else if SniffMagicType(sample).Some? then Ok(SniffMagicType(sample).value)
                   else if guess.Allowed? && guess.mime in {TextPlain, TextCsv, Json}
                   then (if Suspicious(file) then Rejected else Ok(guess.mime))
                   else Ok(OctetStream)
  {
    var header := if |file| <= 8192 then file else file[..8192];
    sample := header;
    r := ValidateFileContent(header, declared, guess);
    DangerIsDangerous(sample);
    if HasTag(sample) { TagInSample(sample, file); }
    if !IsDangerousContent(sample) { UndeclaredTypes(sample, guess); }
    if r.Ok? {
      if IsText(r.mime) {
        var clean := ScanFile(file);
        if !clean { r := Rejected; }
      }
    }
  }

  /** What a caller who declares nothing gets: the sniffed type if there is one; otherwise a
      text type the file's name suggests; otherwise octet-stream.  A name that suggests a
      type with magic bytes is never believed. */
  lemma UndeclaredTypes(header: Bytes, guess: Declared)
    requires !IsDangerousContent(header)
    ensures var r := ValidateFileContent(header, Unset, guess);
            && r.Ok?
            && (HasValidator(r.mime) <==> SniffMagicType(header).Some?)
            && (HasValidator(r.mime) ==> r.mime == SniffMagicType(header).value)
            && (!HasValidator(r.mime) ==>
                  r.mime == if guess.Allowed? && IsText(guess.mime) then guess.mime else OctetStream)
  {
    if SniffMagicType(header).None? && guess.Allowed? && HasValidator(guess.mime) && Verifies(header, guess.mime) {
      VerifiedIsSniffed(header, guess.mime);
    }
  }
}
