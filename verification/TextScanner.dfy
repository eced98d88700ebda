/** The streaming scan of text files for markup, scripts and executables: one pass in
    64 KiB chunks with a 256-byte carry, against a scan of the file as a whole. */
module TextScanner {
  import opened Records

  const CHUNK := 65536
  const OVERLAP := 256

  function Ascii(s: string): (b: Bytes)
    ensures |b| == |s|
  {
    seq(|s|, i requires 0 <= i < |s| => (s[i] as int % 256) as bv8)
  }

  /** bytes.lower(): ASCII only. */
  function Fold(b: bv8): bv8 {
    if 0x41 <= b <= 0x5a then b + 0x20 else b
  }

  function Lower(s: Bytes): (l: Bytes)
    ensures |l| == |s| && forall i :: 0 <= i < |s| ==> l[i] == Fold(s[i])
  {
    seq(|s|, i requires 0 <= i < |s| => Fold(s[i]))
  }

  predicate MatchesAt(s: Bytes, p: Bytes, i: int) {
    0 <= i <= |s| - |p| && s[i..i + |p|] == p
  }

  /** `p in s` */
  predicate Contains(s: Bytes, p: Bytes) {
    exists i :: 0 <= i <= |s| && MatchesAt(s, p, i)
  }

  const PATTERNS := [
    Ascii("<!doctype html"), Ascii("<html"), Ascii("<script"), Ascii("<svg"),
    Ascii("xmlns=\"http://www.w3.org/2000/svg\""), Ascii("xmlns='http://www.w3.org/2000/svg'"),
    Ascii("javascript:"), Ascii("onload="), Ascii("onerror=")]

  /** Windows, ELF and Mach-O executables. */
  const EXECUTABLES := [
    Ascii("MZ"), [0x7f, 0x45, 0x4c, 0x46],
    [0xca, 0xfe, 0xba, 0xbe], [0xcf, 0xfa, 0xed, 0xfe], [0xce, 0xfa, 0xed, 0xfe], [0xfe, 0xed, 0xfa, 0xce]]

  predicate ExecutableAt(s: Bytes, i: int) {
    exists n :: 0 <= n < |EXECUTABLES| && MatchesAt(s, EXECUTABLES[n], i)
  }

  predicate HasPattern(s: Bytes) {
    exists n :: 0 <= n < |PATTERNS| && Contains(Lower(s), PATTERNS[n])
  }

  predicate TagChar(b: bv8) {
    0x61 <= b <= 0x7a || 0x41 <= b <= 0x5a || b == 0x2f || b == 0x21 || b == 0x3f
  }

  /** re.search(rb"<[a-zA-Z/!?]", s) */
  predicate HasTag(s: Bytes) {
    exists i :: 0 <= i < |s| - 1 && s[i] == 0x3c && TagChar(s[i + 1])
  }

  predicate IsDangerousContent(header: Bytes) {
    || ExecutableAt(header, 0)
    || HasPattern(header)
    || (MatchesAt(Lower(header), Ascii("<?xml"), 0)
        && (Contains(Lower(header), Ascii("<svg")) || Contains(Lower(header), Ascii("<!doctype"))))
  }

  // ----- Case ---------------------------------------------------------------------------------

  ghost predicate Letter(b: bv8) {
    0x41 <= b <= 0x5a || 0x61 <= b <= 0x7a
  }

  /** The same byte, or the same letter in the other case. */
  ghost predicate SameUpToCase(a: bv8, b: bv8) {
    a == b || (Letter(a) && a ^ 0x20 == b)
  }

  /** Lower-casing forgets the case of letters and nothing else. */
  lemma FoldForgetsCase(a: bv8, b: bv8)
    ensures Fold(a) == Fold(b) <==> SameUpToCase(a, b)
  {
  }

  /** `p` stands at `i`, each letter in either case. */
  ghost predicate StandsAt(s: Bytes, p: Bytes, i: int) {
    0 <= i <= |s| - |p| && forall k :: 0 <= k < |p| ==> SameUpToCase(s[i + k], p[k])
  }

  lemma SmallByte(c: char)
    requires c < '\U{0080}' && !('A' <= c <= 'Z')
    ensures Fold((c as int % 256) as bv8) == (c as int % 256) as bv8
  {
    var b := (c as int % 256) as bv8;
    assert b as int == c as int;
  }

  ghost predicate LowerText(t: string) {
    forall i :: 0 <= i < |t| ==> t[i] < '\U{0080}' && !('A' <= t[i] <= 'Z')
  }

  lemma AsciiIsLower(t: string)
    requires LowerText(t)
    ensures Lower(Ascii(t)) == Ascii(t)
  {
    forall i | 0 <= i < |t| ensures Fold(Ascii(t)[i]) == Ascii(t)[i] { SmallByte(t[i]); }
  }

  /** The patterns are written in lower case. */
  lemma PatternsAreLower(n: nat)
    requires n < |PATTERNS|
    ensures Lower(PATTERNS[n]) == PATTERNS[n]
  {
    if n < 4 { MarkupIsLower(n); } else if n < 6 { NamespacesAreLower(n); } else { ScriptsAreLower(n); }
  }

  lemma MarkupIsLower(n: nat)
    requires n < 4
    ensures Lower(PATTERNS[n]) == PATTERNS[n]
  {
    AsciiIsLower("<!doctype html");
    AsciiIsLower("<html");
    AsciiIsLower("<script");
    AsciiIsLower("<svg");
  }

  lemma NamespacesAreLower(n: nat)
    requires 4 <= n < 6
    ensures Lower(PATTERNS[n]) == PATTERNS[n]
  {
    AsciiIsLower("xmlns=\"http://www.w3.org/2000/svg\"");
    AsciiIsLower("xmlns='http://www.w3.org/2000/svg'");
  }

  lemma ScriptsAreLower(n: nat)
    requires 6 <= n < 9
    ensures Lower(PATTERNS[n]) == PATTERNS[n]
  {
    AsciiIsLower("javascript:");
    AsciiIsLower("onload=");
    AsciiIsLower("onerror=");
  }

  lemma MatchIsAnyCase(s: Bytes, p: Bytes, i: int)
    requires Lower(p) == p
    ensures MatchesAt(Lower(s), p, i) <==> StandsAt(s, p, i)
  {
    if 0 <= i <= |s| - |p| {
      var m := Lower(s)[i..i + |p|];
      forall k | 0 <= k < |p| ensures m[k] == p[k] <==> SameUpToCase(s[i + k], p[k]) {
        assert p[k] == Lower(p)[k] == Fold(p[k]);
        FoldForgetsCase(s[i + k], p[k]);
      }
      assert m == p <==> forall k :: 0 <= k < |p| ==> m[k] == p[k];
    }
  }

  /** A pattern is found exactly where it stands, in whatever case its letters are. */
  lemma PatternsIgnoreCase(s: Bytes)
    ensures HasPattern(s) <==> exists n, i :: 0 <= n < |PATTERNS| && StandsAt(s, PATTERNS[n], i)
  {
    forall n, i | 0 <= n < |PATTERNS| ensures MatchesAt(Lower(s), PATTERNS[n], i) <==> StandsAt(s, PATTERNS[n], i) {
      PatternsAreLower(n);
      MatchIsAnyCase(s, PATTERNS[n], i);
    }
    if HasPattern(s) {
      var n :| 0 <= n < |PATTERNS| && Contains(Lower(s), PATTERNS[n]);
      var i :| MatchesAt(Lower(s), PATTERNS[n], i);
      assert StandsAt(s, PATTERNS[n], i);
    }
    if n, i :| 0 <= n < |PATTERNS| && StandsAt(s, PATTERNS[n], i) {
      assert MatchesAt(Lower(s), PATTERNS[n], i) && Contains(Lower(s), PATTERNS[n]);
    }
  }

  // ----- The whole file -------------------------------------------------------------------

  /** Where the windows of the streaming scan begin: at 0 and 256 bytes before each later chunk
      of 65536. */
  ghost predicate WindowStart(file: Bytes, w: int) {
    w == 0 || (w > 0 && (w + 256) % 65536 == 0 && w + 256 < |file|)
  }

  /** `<` and then a letter, `/`, `!` or `?`. */
  ghost predicate OpensTag(s: Bytes, i: int) {
    0 <= i && i + 1 < |s| && s[i] == 0x3c && (Letter(s[i + 1]) || s[i + 1] in {0x2f, 0x21, 0x3f})
  }

  /** What the scan is for, said of the whole file. */
  ghost predicate Suspicious(file: Bytes) {
    || (exists n, i :: 0 <= n < |PATTERNS| && StandsAt(file, PATTERNS[n], i))
    || (exists i :: OpensTag(file, i))
    || (exists w :: WindowStart(file, w) && ExecutableAt(file, w))
  }

  /** What marks a header as dangerous: an executable, a pattern in any case, or XML that is
      an SVG or has a document type. */
  ghost predicate Dangerous(header: Bytes) {
    || (exists n :: 0 <= n < |EXECUTABLES| && EXECUTABLES[n] <= header)
    || (exists n, i :: 0 <= n < |PATTERNS| && StandsAt(header, PATTERNS[n], i))
    || (StandsAt(header, Ascii("<?xml"), 0)
        && exists i :: StandsAt(header, Ascii("<svg"), i) || StandsAt(header, Ascii("<!doctype"), i))
  }

  lemma ContainsIsAnyCase(s: Bytes, t: string)
    requires LowerText(t)
    ensures Contains(Lower(s), Ascii(t)) <==> exists i :: StandsAt(s, Ascii(t), i)
    ensures MatchesAt(Lower(s), Ascii(t), 0) <==> StandsAt(s, Ascii(t), 0)
  {
    AsciiIsLower(t);
    forall i ensures MatchesAt(Lower(s), Ascii(t), i) <==> StandsAt(s, Ascii(t), i) { MatchIsAnyCase(s, Ascii(t), i); }
  }

  lemma DangerIsDangerous(header: Bytes)
    ensures IsDangerousContent(header) <==> Dangerous(header)
  {
    PatternsIgnoreCase(header);
    ContainsIsAnyCase(header, "<?xml");
    ContainsIsAnyCase(header, "<svg");
    ContainsIsAnyCase(header, "<!doctype");
    forall n | 0 <= n < |EXECUTABLES| ensures MatchesAt(header, EXECUTABLES[n], 0) <==> EXECUTABLES[n] <= header {}
  }

  /** The two tests one window is put to. */
  predicate Flagged(window: Bytes) {
    IsDangerousContent(window) || HasTag(window)
  }

  // ----- A window and the prefix before it decide the longer prefix --------------------------

  lemma LowerSlice(s: Bytes, a: nat, b: nat)
    requires a <= b <= |s|
    ensures Lower(s[a..b]) == Lower(s)[a..b]
  {
  }

  lemma MatchInSlice(s: Bytes, p: Bytes, a: nat, b: nat, i: int)
    requires a <= b <= |s|
    ensures MatchesAt(s[a..b], p, i) <==> i >= 0 && i + a + |p| <= b && MatchesAt(s, p, i + a)
  {
    if 0 <= i && i + a + |p| <= b {
      var j := i + |p|;
      forall k | 0 <= k < |p| ensures s[a..b][i..j][k] == s[i + a..j + a][k] {}
      assert s[a..b][i..j] == s[i + a..j + a];
    }
  }

  /** No occurrence is lost between the part already seen and the next window. */
  lemma OccurrenceSplits(s: Bytes, p: Bytes, a: nat, pos: nat, b: nat)
    requires a <= pos <= b <= |s| && 0 < |p| && (a == 0 || pos - a >= |p| - 1)
    ensures Contains(s[..b], p) <==> Contains(s[..pos], p) || Contains(s[a..b], p)
  {
    if Contains(s[..b], p) {
      var i :| MatchesAt(s[..b], p, i);
      MatchInSlice(s, p, 0, b, i);
      if i + |p| <= pos { MatchInSlice(s, p, 0, pos, i); assert MatchesAt(s[..pos], p, i); }
      else { MatchInSlice(s, p, a, b, i - a); assert MatchesAt(s[a..b], p, i - a); }
    }
    if Contains(s[..pos], p) {
      var i :| MatchesAt(s[..pos], p, i);
      MatchInSlice(s, p, 0, pos, i);
      MatchInSlice(s, p, 0, b, i);
      assert MatchesAt(s[..b], p, i);
    }
    if Contains(s[a..b], p) {
      var i :| MatchesAt(s[a..b], p, i);
      MatchInSlice(s, p, a, b, i);
      MatchInSlice(s, p, 0, b, i + a);
      assert MatchesAt(s[..b], p, i + a);
    }
  }

  lemma PatternSizes()
    ensures forall n :: 0 <= n < |PATTERNS| ==> 0 < |PATTERNS[n]| <= OVERLAP
    ensures forall n :: 0 <= n < |EXECUTABLES| ==> 0 < |EXECUTABLES[n]| <= 4
  {
  }

  lemma PatternsSplit(file: Bytes, a: nat, pos: nat, b: nat)
    requires a <= pos <= b <= |file| && (a == 0 || pos - a == OVERLAP)
    ensures HasPattern(file[..b]) <==> HasPattern(file[..pos]) || HasPattern(file[a..b])
  {
    PatternSizes();
    LowerSlice(file, 0, b);
    LowerSlice(file, 0, pos);
    LowerSlice(file, a, b);
    forall n | 0 <= n < |PATTERNS|
      ensures Contains(Lower(file[..b]), PATTERNS[n]) <==>
                Contains(Lower(file[..pos]), PATTERNS[n]) || Contains(Lower(file[a..b]), PATTERNS[n])
    {
      OccurrenceSplits(Lower(file), PATTERNS[n], a, pos, b);
    }
  }

  lemma TagsSplit(file: Bytes, a: nat, pos: nat, b: nat)
    requires a <= pos <= b <= |file| && (a == 0 || pos - a == OVERLAP)
    ensures HasTag(file[..b]) <==> HasTag(file[..pos]) || HasTag(file[a..b])
  {
    if HasTag(file[..b]) {
      var i :| 0 <= i < b - 1 && file[..b][i] == 0x3c && TagChar(file[..b][i + 1]);
      if i + 1 < pos { assert file[..pos][i] == 0x3c && TagChar(file[..pos][i + 1]); }
      else { assert file[a..b][i - a] == 0x3c && TagChar(file[a..b][i - a + 1]); }
    }
    if HasTag(file[..pos]) {
      var i :| 0 <= i < pos - 1 && file[..pos][i] == 0x3c && TagChar(file[..pos][i + 1]);
      assert file[..b][i] == 0x3c && TagChar(file[..b][i + 1]);
    }
    if HasTag(file[a..b]) {
      var i :| 0 <= i < b - a - 1 && file[a..b][i] == 0x3c && TagChar(file[a..b][i + 1]);
      assert file[..b][i + a] == 0x3c && TagChar(file[..b][i + a + 1]);
    }
  }

  ghost predicate ExecutableWindow(file: Bytes) {
    exists w :: WindowStart(file, w) && ExecutableAt(file, w)
  }

  lemma ExecutableInPrefix(file: Bytes, b: nat, c: nat, w: nat)
    requires b <= c <= |file| && w + 4 <= b
    ensures ExecutableAt(file[..b], w) <==> ExecutableAt(file[..c], w)
  {
    PatternSizes();
    forall n | 0 <= n < |EXECUTABLES| ensures MatchesAt(file[..b], EXECUTABLES[n], w) <==>
      MatchesAt(file[..c], EXECUTABLES[n], w) {
      MatchInSlice(file, EXECUTABLES[n], 0, b, w);
      MatchInSlice(file, EXECUTABLES[n], 0, c, w);
    }
  }

  lemma ExecutableInWindow(file: Bytes, a: nat, b: nat)
    requires a <= b <= |file|
    ensures ExecutableAt(file[..b], a) <==> ExecutableAt(file[a..b], 0)
  {
    forall n | 0 <= n < |EXECUTABLES| ensures MatchesAt(file[..b], EXECUTABLES[n], a) <==>
      MatchesAt(file[a..b], EXECUTABLES[n], 0) {
      MatchInSlice(file, EXECUTABLES[n], 0, b, a);
      MatchInSlice(file, EXECUTABLES[n], a, b, 0);
    }
  }

  lemma WindowStarts(file: Bytes, a: nat, pos: nat, b: nat, w: int)
    requires pos < b <= |file| && b <= pos + CHUNK && pos % CHUNK == 0
    requires a == if pos == 0 then 0 else pos - OVERLAP
    ensures WindowStart(file[..b], w) <==> w == a || (pos > 0 && WindowStart(file[..pos], w))
    ensures pos > 0 && WindowStart(file[..pos], w) ==> w + 4 <= pos
  {
    if w > 0 && (w + OVERLAP) % CHUNK == 0 && w + OVERLAP < b {
      var k, m := (w + OVERLAP) / CHUNK, pos / CHUNK;
      assert w + OVERLAP == k * CHUNK && pos == m * CHUNK;
      assert k <= m;
    }
  }

  lemma ExecutablesSplit(file: Bytes, a: nat, pos: nat, b: nat)
    requires pos < b <= |file| && b <= pos + CHUNK && pos % CHUNK == 0
    requires a == if pos == 0 then 0 else pos - OVERLAP
    ensures ExecutableWindow(file[..b]) <==> ExecutableWindow(file[..pos]) || ExecutableAt(file[a..b], 0)
  {
    ExecutableInWindow(file, a, b);
    WindowStarts(file, a, pos, b, a);
    if ExecutableWindow(file[..b]) {
      var w :| WindowStart(file[..b], w) && ExecutableAt(file[..b], w);
      WindowStarts(file, a, pos, b, w);
      if w != a { ExecutableInPrefix(file, pos, b, w); assert ExecutableWindow(file[..pos]); }
    }
    if ExecutableWindow(file[..pos]) {
      var w :| WindowStart(file[..pos], w) && ExecutableAt(file[..pos], w);
      PatternSizes();
      assert pos > 0;
      WindowStarts(file, a, pos, b, w);
      ExecutableInPrefix(file, pos, b, w);
    }
  }

  lemma FoldsToItself(b: bv8)
    requires Fold(b) == 0x3c || Fold(b) == 0x3f
    ensures b == Fold(b)
  {
  }

  lemma XmlMark()
    ensures var p := Ascii("<?xml"); |p| == 5 && p[0] == 0x3c && p[1] == 0x3f
  {
  }

  lemma MatchAtFront(s: Bytes, p: Bytes)
    requires MatchesAt(s, p, 0) && |p| >= 2
    ensures |s| >= 2 && s[0] == p[0] && s[1] == p[1]
  {
    assert s[0..0 + |p|][0] == s[0] && s[0..0 + |p|][1] == s[1];
  }

  /** The XML clause never decides anything here: what it asks for is a tag already. */
  lemma XmlIsATag(s: Bytes)
    requires MatchesAt(Lower(s), Ascii("<?xml"), 0)
    ensures HasTag(s)
  {
    XmlMark();
    MatchAtFront(Lower(s), Ascii("<?xml"));
    FoldsToItself(s[0]);
    FoldsToItself(s[1]);
    assert s[0] == 0x3c && TagChar(s[1]);
  }

  lemma WindowDecides(file: Bytes, a: nat, pos: nat, b: nat)
    requires pos < b <= |file| && b <= pos + CHUNK && pos % CHUNK == 0
    requires a == if pos == 0 then 0 else pos - OVERLAP
    ensures Suspicious(file[..b]) <==> Suspicious(file[..pos]) || Flagged(file[a..b])
  {
    PatternsSplit(file, a, pos, b);
    TagsSplit(file, a, pos, b);
    ExecutablesSplit(file, a, pos, b);
    if MatchesAt(Lower(file[a..b]), Ascii("<?xml"), 0) { XmlIsATag(file[a..b]); }
    Whole(file[..b]);
    Whole(file[..pos]);
  }

  lemma TagsOpen(s: Bytes)
    ensures HasTag(s) <==> exists i :: OpensTag(s, i)
  {
    if HasTag(s) {
      var i :| 0 <= i < |s| - 1 && s[i] == 0x3c && TagChar(s[i + 1]);
      assert OpensTag(s, i);
    }
    if i :| OpensTag(s, i) { assert s[i] == 0x3c && TagChar(s[i + 1]); }
  }

  lemma Whole(file: Bytes)
    ensures Suspicious(file) <==> HasPattern(file) || HasTag(file) || ExecutableWindow(file)
  {
    PatternsIgnoreCase(file);
    TagsOpen(file);
  }

  /** Where the window that ends at or after `pos` begins. */
  function Back(pos: nat): nat {
    if pos <= OVERLAP then 0 else pos - OVERLAP
  }

  function NextStop(file: Bytes, pos: nat): (next: nat)
    requires pos < |file|
    ensures pos < next <= |file| && next <= pos + CHUNK && (next == |file| || next == pos + CHUNK)
  {
    if pos + CHUNK <= |file| then pos + CHUNK else |file|
  }

  /** The carry kept after a chunk is what the next window needs. */
  lemma CarryIsTail(file: Bytes, pos: nat, next: nat)
    requires pos < next <= |file| && (next < |file| ==> next == pos + CHUNK)
    ensures var chunk := file[pos..next];
            next < |file| ==> |chunk| >= OVERLAP && chunk[|chunk| - OVERLAP..] == file[Back(next)..next]
  {
  }

  lemma WindowIsSlice(file: Bytes, pos: nat, next: nat)
    requires pos < next <= |file|
    ensures file[Back(pos)..pos] + file[pos..next] == file[Back(pos)..next]
  {
  }

  /** One turn of the loop: the two tests of the window that ends at `next`. */
  method TestWindow(file: Bytes, carry: Bytes, pos: nat, next: nat) returns (bad: bool)
    requires pos < |file| && next == NextStop(file, pos) && pos % CHUNK == 0 && carry == file[Back(pos)..pos]
    ensures bad || Suspicious(file[..pos]) <==> Suspicious(file[..next])
    ensures bad ==> Suspicious(file)
  {
    var window := carry + file[pos..next];
    WindowIsSlice(file, pos, next);
    WindowDecides(file, Back(pos), pos, next);
    bad := Flagged(window);
    if bad { SuspicionStays(file, next); }
  }

  /** _scan_file_for_dangerous_text: accepts exactly the files with nothing suspicious in
      them; no pattern split across a chunk boundary is missed and no other file refused. */
  method ScanFile(file: Bytes) returns (ok: bool)
    ensures ok <==> !Suspicious(file)
  {
    var pos := 0;
    var carry: Bytes := [];
    assert file[..0] == [];
    NothingSuspiciousInNothing();
    while pos < |file|
      invariant 0 <= pos <= |file|
      invariant pos < |file| ==> pos % CHUNK == 0 && carry == file[Back(pos)..pos]
      invariant !Suspicious(file[..pos])
    {
      var next := NextStop(file, pos);
      var chunk := file[pos..next];
      var bad := TestWindow(file, carry, pos, next);
      if bad { return false; }
      CarryIsTail(file, pos, next);
      carry := if |chunk| >= OVERLAP then chunk[|chunk| - OVERLAP..] else chunk;
      pos := next;
    }
    assert file[..pos] == file;
    return true;
  }

  lemma NothingSuspiciousInNothing()
    ensures !Suspicious([])
  {
    PatternSizes();
    assert Lower([]) == [];
    assert !HasTag([]);
    Whole([]);
  }

  /** A prefix that ends with a chunk and is suspicious makes the file suspicious. */
  lemma {:induction false} SuspicionStays(file: Bytes, pos: nat)
    requires pos <= |file| && (pos == |file| || pos % CHUNK == 0) && Suspicious(file[..pos])
    ensures Suspicious(file)
    decreases |file| - pos
  {
    if pos < |file| {
      var next := NextStop(file, pos);
      WindowDecides(file, Back(pos), pos, next);
      SuspicionStays(file, next);
    } else {
      assert file[..pos] == file;
    }
  }
}
