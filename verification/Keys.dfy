/** Storage keys as the service spells them, and the algebra on them: the `private/`
    boundary, key rotation and rendition keys. */
module Keys {
  import opened Records

  // ----- String operations of the source language -------------------------------

  /** Position of the first `c`, or |s|. */
  function IndexOf(s: string, c: char): (i: nat)
    ensures i <= |s| && c !in s[..i] && (i < |s| ==> s[i] == c)
  {
    if s == [] || s[0] == c then 0 else 1 + IndexOf(s[1..], c)
  }

  /** Position of the last `c`, or -1. */
  function LastIndexOf(s: string, c: char): (i: int)
    ensures -1 <= i < |s| && c !in s[i + 1..] && (0 <= i ==> s[i] == c)
  {
    if s == [] then -1
    else if s[|s| - 1] == c then |s| - 1
    else LastIndexOf(s[..|s| - 1], c)
  }

  /** `s.rpartition("/")`, without the separator: ("", s) when there is none. */
  function SplitPath(s: string): (r: (string, string))
    ensures '/' !in r.1 && if '/' in s then s == r.0 + "/" + r.1 else r == ("", s)
  {
    var i := LastIndexOf(s, '/');
    if i < 0 then ("", s) else (s[..i], s[i + 1..])
  }

  function StripSlashes(s: string): string {
    if s != [] && s[0] == '/' then StripSlashes(s[1..])
    else if s != [] && s[|s| - 1] == '/' then StripSlashes(s[..|s| - 1])
    else s
  }

  /** What str.strip removes, among ASCII characters. */
  predicate Blank(c: char) {
    c == ' ' || '\t' <= c <= '\r' || '\U{1c}' <= c <= '\U{1f}'
  }

  function StripBlanks(s: string): string {
    if s != [] && Blank(s[0]) then StripBlanks(s[1..])
    else if s != [] && Blank(s[|s| - 1]) then StripBlanks(s[..|s| - 1])
    else s
  }

  function LowerChar(c: char): char {
    if 'A' <= c <= 'Z' then c + ' ' else c
  }

  function LowerCase(s: string): (l: string)
    ensures |l| == |s| && forall i :: 0 <= i < |s| ==> l[i] == LowerChar(s[i])
  {
    seq(|s|, i requires 0 <= i < |s| => LowerChar(s[i]))
  }

  predicate Alnum(c: char) {
    'a' <= c <= 'z' || '0' <= c <= '9'
  }

  /** re.sub("[^a-z0-9]", "", s) */
  function KeepAlnum(s: string): (k: string)
    ensures forall c :: c in k ==> Alnum(c)
  {
    if s == [] then [] else (if Alnum(s[0]) then [s[0]] else []) + KeepAlnum(s[1..])
  }

  const PRIVATE := "private/"

  // ----- The service's key functions, on strings ---------------------------------

  function StoragePrefix(basePrefix: string, visibility: Visibility): string {
    var clean := StripSlashes(basePrefix);
    if visibility.Private? then if PRIVATE <= clean then clean else PRIVATE + clean
    else if PRIVATE <= clean then clean[|PRIVATE|..] else clean
  }

  function DeriveRotatedKey(oldKey: string, visibility: Visibility, uuid: string): string {
    var (prefix, name) := SplitPath(oldKey);
    var dot := IndexOf(name, '.');
    var suffix := if dot < |name| then name[dot + 1..] else "";
    var filename := if suffix != "" then uuid + "." + suffix else uuid;
    var newPrefix := if prefix != "" then StoragePrefix(prefix, visibility)
                     else if visibility.Private? then "private" else "";
    if newPrefix != "" then newPrefix + "/" + filename else filename
  }

  /** _RENDITION_ALIASES */
  function Canonical(name: string): (r: Option<string>)
    ensures r.Some? ==> r.value in CANONICAL_NAMES
  {
    if name in {"thumbnail", "thumb", "t300"} then Some("thumbnail")
    else if name in {"w400", "400"} then Some("w400")
    else if name in {"w800", "800"} then Some("w800")
    else if name in {"w1600", "1600"} then Some("w1600")
    else None
  }

  function NormalizeRenditionName(name: string): (r: Option<string>)
    ensures r.Some? ==> r.value in CANONICAL_NAMES
  {
    Canonical(LowerCase(StripBlanks(name)))
  }

  /** The suffix RENDITION_SPECS gives a canonical name. */
  function Suffix(name: string): string {
    if name == "thumbnail" then "t300" else name
  }

  /** An unknown name stands for itself. */
  function SpecSuffix(name: string): string {
    match NormalizeRenditionName(name)
    case Some(canonical) => Suffix(canonical)
    case None => name
  }

  function DeriveRenditionKey(parent: string, name: string): string {
    var (prefix, filename) := SplitPath(parent);
    var dot := LastIndexOf(filename, '.');
    var stem := if dot < 0 then filename else filename[..dot];
    var part := stem + "_" + SpecSuffix(name) + ".webp";
    if prefix != "" then prefix + "/" + part else part
  }

  predicate AllAlnum(s: string) {
    forall i :: 0 <= i < |s| ==> Alnum(s[i])
  }

  lemma AlnumIsProper(ext: string)
    requires ext != "" && AllAlnum(ext)
    ensures ProperExt(ext)
  {
  }

  /** _sanitize_extension: whatever the client calls its file, an extension a key can end in. */
  function SanitizeExtension(filename: string): (ext: string)
    ensures ProperExt(ext) && |ext| <= 8 && AllAlnum(ext)
  {
    var dot := LastIndexOf(filename, '.');
    var raw := if dot < 0 then "" else filename[dot + 1..];
    var kept := KeepAlnum(LowerCase(raw));
    var cleaned := if |kept| <= 8 then kept else kept[..8];
    if cleaned == "" then "bin" else
      AlnumIsProper(cleaned);
      cleaned
  }

  // ----- What the string operations come to -------------------------------------------

  /** Stripping takes slashes off both ends, as many as there are, and nothing else. */
  lemma {:induction false} SlashesStripped(s: string) returns (i: nat, j: nat)
    ensures i <= j <= |s| && StripSlashes(s) == s[i..j]
    ensures forall k :: 0 <= k < i || j <= k < |s| ==> s[k] == '/'
    ensures i < j ==> s[i] != '/' && s[j - 1] != '/'
    decreases |s|
  {
    i, j := 0, |s|;
    if s != "" && s[0] == '/' {
      i, j := SlashesStripped(s[1..]);
      i, j := i + 1, j + 1;
    } else if s != "" && s[|s| - 1] == '/' {
      i, j := SlashesStripped(s[..|s| - 1]);
    }
  }

  lemma {:induction false} BlanksStripped(s: string) returns (i: nat, j: nat)
    ensures i <= j <= |s| && StripBlanks(s) == s[i..j]
    ensures forall k :: 0 <= k < i || j <= k < |s| ==> Blank(s[k])
    ensures i < j ==> !Blank(s[i]) && !Blank(s[j - 1])
    decreases |s|
  {
    i, j := 0, |s|;
    if s != "" && Blank(s[0]) {
      i, j := BlanksStripped(s[1..]);
      i, j := i + 1, j + 1;
    } else if s != "" && Blank(s[|s| - 1]) {
      i, j := BlanksStripped(s[..|s| - 1]);
    }
  }

  /** The alphabet, and nothing but the alphabet. */
  lemma LowerCaseOfLetters(c: char)
    ensures LowerCase("ABCDEFGHIJKLM") == "abcdefghijklm" && LowerCase("NOPQRSTUVWXYZ") == "nopqrstuvwxyz"
    ensures c !in "ABCDEFGHIJKLM" && c !in "NOPQRSTUVWXYZ" ==> LowerChar(c) == c
  {
    var u, v := "ABCDEFGHIJKLM", "NOPQRSTUVWXYZ";
    if 'A' <= c <= 'M' { assert u[c as int - 'A' as int] == c; }
    if 'N' <= c <= 'Z' { assert v[c as int - 'N' as int] == c; }
  }

  lemma LettersAndDigits(c: char)
    ensures Alnum(c) <==> c in "abcdefghijklm" || c in "nopqrstuvwxyz" || c in "0123456789"
  {
    var u, v, d := "abcdefghijklm", "nopqrstuvwxyz", "0123456789";
    if 'a' <= c <= 'm' { assert u[c as int - 'a' as int] == c; }
    if 'n' <= c <= 'z' { assert v[c as int - 'n' as int] == c; }
    if '0' <= c <= '9' { assert d[c as int - '0' as int] == c; }
  }

  /** The names each rendition goes by. */
  ghost const ALIASES := map[
    "thumbnail" := {"thumbnail", "thumb", "t300"},
    "w400" := {"w400", "400"},
    "w800" := {"w800", "800"},
    "w1600" := {"w1600", "1600"}]

  /** A name means a rendition if and only if, blanks and case aside, it is one of its aliases. */
  lemma NamesAreAliases(name: string, canonical: string)
    requires canonical in CANONICAL_NAMES
    ensures NormalizeRenditionName(name) == Some(canonical) <==> LowerCase(StripBlanks(name)) in ALIASES[canonical]
  {
  }

  /** The suffix of a rendition's key is one of its aliases, for the thumbnail the short one. */
  lemma SuffixIsAlias(canonical: string)
    requires canonical in CANONICAL_NAMES
    ensures Suffix(canonical) in ALIASES[canonical]
    ensures Suffix(canonical) == if canonical == "thumbnail" then "t300" else canonical
  {
  }

  lemma {:induction false} KeptOfBoth(a: string, b: string)
    ensures KeepAlnum(a + b) == KeepAlnum(a) + KeepAlnum(b)
  {
    if a == "" {
      assert a + b == b;
    } else {
      assert (a + b)[0] == a[0] && (a + b)[1..] == a[1..] + b;
      KeptOfBoth(a[1..], b);
    }
  }

  lemma {:induction false} AlnumIsKept(s: string)
    requires AllAlnum(s)
    ensures KeepAlnum(s) == s
  {
    if s != "" { AlnumIsKept(s[1..]); }
  }

  lemma ExtensionOf(stem: string, ext: string)
    requires '.' !in ext
    ensures LastIndexOf(stem + "." + ext, '.') == |stem| && (stem + "." + ext)[|stem| + 1..] == ext
  {
    LastIndexAt(stem, '.', ext);
    assert stem + "." + ext == stem + ['.'] + ext;
  }

  /** From what follows the last dot, with junk removed, to the extension. */
  ghost function Cut(kept: string): string {
    if kept == "" then "bin" else if |kept| <= 8 then kept else kept[..8]
  }

  lemma CutAfterDot(stem: string, ext: string)
    requires '.' !in ext
    ensures SanitizeExtension(stem + "." + ext) == Cut(KeepAlnum(LowerCase(ext)))
  {
    ExtensionOf(stem, ext);
  }

  lemma NoExtension(name: string)
    requires '.' !in name
    ensures SanitizeExtension(name) == "bin"
  {
    assert LastIndexOf(name, '.') == -1;
  }

  /** What becomes of a client's extension: none, or nothing left of it, becomes "bin"; one of
      letters and digits is kept in lower case, up to eight characters; ... */
  lemma SanitizedExtension(stem: string, ext: string)
    requires '.' !in ext
    ensures SanitizeExtension(ext) == "bin"
    ensures ext == "" ==> SanitizeExtension(stem + "." + ext) == "bin"
    ensures ext != "" && AllAlnum(LowerCase(ext)) ==>
              SanitizeExtension(stem + "." + ext) == if |ext| <= 8 then LowerCase(ext) else LowerCase(ext)[..8]
  {
    NoExtension(ext);
    CutAfterDot(stem, ext);
    if AllAlnum(LowerCase(ext)) { AlnumIsKept(LowerCase(ext)); }
  }

  lemma KeptWithout(a: string, c: char, b: string)
    requires !Alnum(LowerChar(c))
    ensures KeepAlnum(LowerCase(a + [c] + b)) == KeepAlnum(LowerCase(a + b))
  {
    var x, y, z := LowerCase(a), LowerCase([c]), LowerCase(b);
    assert LowerCase(a + [c] + b) == x + y + z;
    assert LowerCase(a + b) == x + z;
    assert KeepAlnum(y) == "" by { assert y[0] == LowerChar(c) && y[1..] == ""; }
    KeptBetween(x, y, z);
  }

  lemma KeptBetween(x: string, y: string, z: string)
    requires KeepAlnum(y) == ""
    ensures KeepAlnum(x + y + z) == KeepAlnum(x + z)
  {
    KeptOfBoth(x + y, z);
    KeptOfBoth(x, y);
    KeptOfBoth(x, z);
  }

  /** ... and any other character in it makes no difference. */
  lemma SanitizedWithout(stem: string, a: string, c: char, b: string)
    requires '.' !in a && '.' !in b && c != '.' && !Alnum(LowerChar(c))
    ensures SanitizeExtension(stem + "." + (a + [c] + b)) == SanitizeExtension(stem + "." + (a + b))
  {
    CutAfterDot(stem, a + [c] + b);
    CutAfterDot(stem, a + b);
    KeptWithout(a, c, b);
  }

  // ----- Structured keys -----------------------------------------------------------

  const CANONICAL_NAMES := {"thumbnail", "w400", "w800", "w1600"}

  predicate Plain(s: string) {
    s != "" && '_' !in s && '.' !in s && '/' !in s
  }

  /** An asset prefix such as "images" or "raw/videos". */
  predicate ProperBase(base: string) {
    && base != "" && base[0] != '/' && base[|base| - 1] != '/'
    && base != "private" && !(PRIVATE <= base)
  }

  predicate ProperExt(ext: string) {
    ext != "" && '.' !in ext && '/' !in ext
  }

  predicate ProperKey(k: Key) {
    && ProperBase(k.base) && Plain(k.uuid) && ProperExt(k.ext)
    && (k.rendition.Some? ==> k.rendition.value in CANONICAL_NAMES && k.ext == "webp")
  }

  function Directory(k: Key): string {
    (if k.hidden then PRIVATE else "") + k.base
  }

  function Stem(k: Key): string {
    k.uuid + (if k.compressed then "_compressed" else "")
  }

  function Name(k: Key): string {
    Stem(k) + (if k.rendition.Some? then "_" + Suffix(k.rendition.value) else "")
  }

  /** The key as the service spells it. */
  function Text(k: Key): string {
    Directory(k) + "/" + (Name(k) + "." + k.ext)
  }

  function Rotated(k: Key, visibility: Visibility, uuid: string): Key {
    Key(visibility.Private?, k.base, uuid, false, k.rendition, k.ext)
  }

  function RenditionOf(k: Key, name: string): Key {
    k.(rendition := Some(name), ext := "webp")
  }

  // ----- Splitting what was joined ----------------------------------------------------

  lemma {:induction false} LastIndexAt(a: string, c: char, b: string)
    requires c !in b
    ensures LastIndexOf(a + [c] + b, c) == |a|
  {
    var s := a + [c] + b;
    if b != "" {
      assert s[|s| - 1] == b[|b| - 1];
      assert s[..|s| - 1] == a + [c] + b[..|b| - 1];
      LastIndexAt(a, c, b[..|b| - 1]);
    }
  }

  lemma {:induction false} FirstIndexAt(a: string, c: char, b: string)
    requires c !in a
    ensures IndexOf(a + [c] + b, c) == |a|
  {
    var s := a + [c] + b;
    if a != "" {
      assert s[0] == a[0] && s[1..] == a[1..] + [c] + b;
      FirstIndexAt(a[1..], c, b);
    }
  }

  /** A path splits into its directory and its file name. */
  lemma SplitJoined(dir: string, file: string)
    requires '/' !in file
    ensures SplitPath(dir + "/" + file) == (dir, file)
  {
    LastIndexAt(dir, '/', file);
    var s := dir + "/" + file;
    assert s == dir + ['/'] + file;
    assert s[..|dir|] == dir && s[|dir| + 1..] == file;
  }

  lemma NameIsClean(k: Key)
    requires ProperKey(k)
    ensures '/' !in Name(k) && '.' !in Name(k) && '/' !in Name(k) + "." + k.ext
  {
    var c := "_compressed";
    assert '/' !in c && '.' !in c;
    assert k.rendition.Some? ==> '/' !in Suffix(k.rendition.value) && '.' !in Suffix(k.rendition.value);
  }

  lemma TextSplits(k: Key)
    requires ProperKey(k)
    ensures SplitPath(Text(k)) == (Directory(k), Name(k) + "." + k.ext)
    ensures IndexOf(Name(k) + "." + k.ext, '.') == |Name(k)| == LastIndexOf(Name(k) + "." + k.ext, '.')
  {
    NameIsClean(k);
    SplitJoined(Directory(k), Name(k) + "." + k.ext);
    assert Text(k) == Directory(k) + "/" + (Name(k) + "." + k.ext);
    FirstIndexAt(Name(k), '.', k.ext);
    LastIndexAt(Name(k), '.', k.ext);
    assert Name(k) + "." + k.ext == Name(k) + ['.'] + k.ext;
  }

  lemma StripProper(s: string)
    requires s != "" && s[0] != '/' && s[|s| - 1] != '/'
    ensures StripSlashes(s) == s
  {
  }

  lemma DirectoryBoundary(k: Key)
    requires ProperKey(k)
    ensures StripSlashes(Directory(k)) == Directory(k) != ""
    ensures PRIVATE <= Directory(k) <==> k.hidden
  {
    StripProper(Directory(k));
    if k.hidden { assert Directory(k)[..|PRIVATE|] == PRIVATE; } else { assert Directory(k) == k.base; }
  }

  // ----- The string functions agree with the structured view ---------------------------

  lemma PrefixRefines(base: string, visibility: Visibility)
    requires ProperBase(base)
    ensures StoragePrefix(base, visibility) == (if visibility.Private? then PRIVATE else "") + base
  {
    StripProper(base);
  }

  lemma PrefixOfDirectory(k: Key, visibility: Visibility, uuid: string)
    requires ProperKey(k)
    ensures StoragePrefix(Directory(k), visibility) == Directory(Rotated(k, visibility, uuid)) != ""
  {
    DirectoryBoundary(k);
    if k.hidden { assert Directory(k)[|PRIVATE|..] == k.base; }
  }

  /** The service's rotation, from the parts of the old key. */
  lemma RotationOfParts(key: string, dir: string, stem: string, ext: string, visibility: Visibility, uuid: string)
    requires SplitPath(key) == (dir, stem + "." + ext) && IndexOf(stem + "." + ext, '.') == |stem|
    requires dir != "" && ext != "" && StoragePrefix(dir, visibility) != ""
    ensures DeriveRotatedKey(key, visibility, uuid) == StoragePrefix(dir, visibility) + "/" + (uuid + "." + ext)
  {
    assert (stem + "." + ext)[|stem| + 1..] == ext;
  }

  lemma RotatedText(k: Key, visibility: Visibility, uuid: string, prefix: string)
    requires k.rendition.None? && prefix == Directory(Rotated(k, visibility, uuid))
    ensures Text(Rotated(k, visibility, uuid)) == prefix + "/" + (uuid + "." + k.ext)
  {
    assert Name(Rotated(k, visibility, uuid)) == uuid;
  }

  lemma RotationRefines(k: Key, visibility: Visibility, uuid: string)
    requires ProperKey(k) && k.rendition.None? && Plain(uuid)
    ensures DeriveRotatedKey(Text(k), visibility, uuid) == Text(Rotated(k, visibility, uuid))
  {
    var key, dir, name := Text(k), Directory(k), Name(k);
    var prefix := StoragePrefix(dir, visibility);
    assert prefix == Directory(Rotated(k, visibility, uuid)) != "" by { PrefixOfDirectory(k, visibility, uuid); }
    assert DeriveRotatedKey(key, visibility, uuid) == prefix + "/" + (uuid + "." + k.ext) by {
      assert dir != "" by { DirectoryBoundary(k); }
      assert SplitPath(key) == (dir, name + "." + k.ext) && IndexOf(name + "." + k.ext, '.') == |name| by {
        TextSplits(k);
      }
      RotationOfParts(key, dir, name, k.ext, visibility, uuid);
    }
    RotatedText(k, visibility, uuid, prefix);
  }

  /** A canonical name is one already. */
  lemma CanonicalIsNormal(name: string)
    requires name in CANONICAL_NAMES
    ensures NormalizeRenditionName(name) == Some(name)
  {
    assert forall i :: 0 <= i < |name| ==> LowerChar(name[i]) == name[i];
    assert LowerCase(name) == name;
  }

  lemma RenditionName(k: Key, name: string)
    requires k.rendition.None?
    ensures Stem(k) + "_" + Suffix(name) + ".webp" == Name(RenditionOf(k, name)) + "." + "webp"
    ensures Name(k) == Stem(k)
  {
    var suffix := Suffix(name);
    assert Stem(k) + "_" + suffix + ".webp" == Stem(k) + ("_" + suffix) + "." + "webp";
  }

  /** The service's derivation, from the parts of the parent's key. */
  lemma RenditionOfParts(key: string, dir: string, stem: string, ext: string, name: string)
    requires SplitPath(key) == (dir, stem + "." + ext) && LastIndexOf(stem + "." + ext, '.') == |stem| && dir != ""
    ensures DeriveRenditionKey(key, name) == dir + "/" + (stem + "_" + SpecSuffix(name) + ".webp")
  {
    assert (stem + "." + ext)[..|stem|] == stem;
  }

  /** Any spelling of a known name gives the structured rendition key; an unknown name is
      appended as it is. */
  lemma RenditionRefines(k: Key, name: string)
    requires ProperKey(k) && k.rendition.None?
    ensures match NormalizeRenditionName(name)
            case Some(canonical) => DeriveRenditionKey(Text(k), name) == Text(RenditionOf(k, canonical))
            case None => DeriveRenditionKey(Text(k), name) == Directory(k) + "/" + (Stem(k) + "_" + name + ".webp")
  {
    assert Name(k) == Stem(k);
    assert DeriveRenditionKey(Text(k), name) == Directory(k) + "/" + (Stem(k) + "_" + SpecSuffix(name) + ".webp") by {
      TextSplits(k);
      DirectoryBoundary(k);
      RenditionOfParts(Text(k), Directory(k), Name(k), k.ext, name);
    }
    if NormalizeRenditionName(name).Some? { RenditionName(k, NormalizeRenditionName(name).value); }
  }

  // ----- Injectivity: no two structured keys are spelled alike --------------------------

  lemma SuffixInjective(a: string, b: string)
    requires a in CANONICAL_NAMES && b in CANONICAL_NAMES && Suffix(a) == Suffix(b)
    ensures a == b
  {
  }

  /** What follows the uuid in a name. */
  function Tail(k: Key): string {
    (if k.compressed then "_compressed" else "") + (if k.rendition.Some? then "_" + Suffix(k.rendition.value) else "")
  }

  lemma TailInjective(a: Key, b: Key)
    requires ProperKey(a) && ProperKey(b) && Tail(a) == Tail(b)
    ensures a.compressed == b.compressed && a.rendition == b.rendition
  {
    var c := "_compressed";
    assert |c| == 11 && c[1] == 'c';
    assert a.compressed ==> Tail(a)[1] == c[1];
    assert b.compressed ==> Tail(b)[1] == c[1];
    assert !a.compressed && a.rendition.Some? ==> Tail(a)[1] == Suffix(a.rendition.value)[0];
    assert !b.compressed && b.rendition.Some? ==> Tail(b)[1] == Suffix(b.rendition.value)[0];
    assert a.compressed == b.compressed;
    var lead := if a.compressed then c else "";
    var ra, rb := Tail(a)[|lead|..], Tail(b)[|lead|..];
    assert ra == if a.rendition.Some? then "_" + Suffix(a.rendition.value) else "";
    assert rb == if b.rendition.Some? then "_" + Suffix(b.rendition.value) else "";
    if a.rendition.Some? && b.rendition.Some? {
      assert ra[1..] == Suffix(a.rendition.value) && rb[1..] == Suffix(b.rendition.value);
      SuffixInjective(a.rendition.value, b.rendition.value);
    }
  }

  lemma FirstMark(u: string, s: string)
    requires '_' !in u && (s == "" || s[0] == '_')
    ensures IndexOf(u + s + "_", '_') == |u|
  {
    var rest := if s == "" then "" else s[1..] + "_";
    assert u + s + "_" == u + ['_'] + rest;
    FirstIndexAt(u, '_', rest);
  }

  /** A string is cut in one way before its first '_'. */
  lemma UuidInjective(u: string, s: string, v: string, t: string)
    requires '_' !in u && '_' !in v && u + s == v + t
    requires s == "" || s[0] == '_'
    requires t == "" || t[0] == '_'
    ensures u == v && s == t
  {
    FirstMark(u, s);
    FirstMark(v, t);
    var w := u + s;
    assert w[..|u|] == u && w[..|v|] == v;
    assert w[|u|..] == s && w[|v|..] == t;
  }

  lemma DirectoryInjective(a: Key, b: Key)
    requires ProperKey(a) && ProperKey(b) && Directory(a) == Directory(b)
    ensures a.hidden == b.hidden && a.base == b.base
  {
    DirectoryBoundary(a);
    DirectoryBoundary(b);
    if a.hidden {
      assert Directory(a)[|PRIVATE|..] == a.base && Directory(b)[|PRIVATE|..] == b.base;
    } else {
      assert Directory(a) == a.base && Directory(b) == b.base;
    }
  }

  lemma NameIsUuidTail(k: Key)
    ensures Name(k) == k.uuid + Tail(k)
  {
  }

  lemma NameInjective(a: Key, b: Key)
    requires ProperKey(a) && ProperKey(b) && Name(a) == Name(b)
    ensures a.uuid == b.uuid && a.compressed == b.compressed && a.rendition == b.rendition
  {
    NameIsUuidTail(a);
    NameIsUuidTail(b);
    UuidInjective(a.uuid, Tail(a), b.uuid, Tail(b));
    TailInjective(a, b);
  }

  /** Distinct structured keys have distinct spellings. */
  lemma TextInjective(a: Key, b: Key)
    requires ProperKey(a) && ProperKey(b) && Text(a) == Text(b)
    ensures a == b
  {
    var fa, fb := Name(a) + "." + a.ext, Name(b) + "." + b.ext;
    assert Directory(a) == Directory(b) && fa == fb && |Name(a)| == |Name(b)| by { TextSplits(a); TextSplits(b); }
    DirectoryInjective(a, b);
    assert fa[..|Name(a)|] == Name(a) && fb[..|Name(b)|] == Name(b);
    assert fa[|Name(a)| + 1..] == a.ext && fb[|Name(b)| + 1..] == b.ext;
    NameInjective(a, b);
  }

  // ----- What the algebra promises, on strings -------------------------------------------

  lemma PrivateRoot(base: string, rest: string)
    requires PRIVATE <= base + "/" + rest
    ensures base == "private" || PRIVATE <= base
  {
    var t := base + "/" + rest;
    assert t[|base|] == '/';
    if |base| < |PRIVATE| {
      assert t[|base|] == PRIVATE[|base|];
      assert base == t[..|base|] == PRIVATE[..|base|];
    } else {
      assert t[..|PRIVATE|] == base[..|PRIVATE|];
    }
  }

  /** The `private/` root is the visibility boundary. */
  lemma TextBoundary(k: Key)
    requires ProperKey(k)
    ensures PRIVATE <= Text(k) <==> k.hidden
  {
    var rest := Name(k) + "." + k.ext;
    if k.hidden {
      assert Text(k)[..|PRIVATE|] == PRIVATE;
    } else {
      assert Text(k) == k.base + "/" + rest;
      assert PRIVATE <= Text(k) ==> k.base == "private" || PRIVATE <= k.base by {
        if PRIVATE <= k.base + "/" + rest { PrivateRoot(k.base, rest); }
      }
    }
  }

  lemma PrivateRootOnly(base: string, rest: string)
    ensures PRIVATE <= base + "/" + rest <==> base == "private" || PRIVATE <= base
  {
    var t := base + "/" + rest;
    if PRIVATE <= t { PrivateRoot(base, rest); }
    if base == "private" { assert t == PRIVATE + rest; }
    if PRIVATE <= base { assert t[..|PRIVATE|] == base[..|PRIVATE|]; }
  }

  // ----- Rotation of any key, proper or not -----------------------------------------------

  ghost function Under(directory: string, name: string): string {
    if directory == "" then name else directory + "/" + name
  }

  /** The file name a rotation gives `file`. */
  ghost function Renamed(file: string, uuid: string): string {
    var dot := IndexOf(file, '.');
    var suffix := if dot < |file| then file[dot + 1..] else "";
    if suffix != "" then uuid + "." + suffix else uuid
  }

  /** It is the uuid, and what follows the first dot. */
  lemma RenamedKeepsSuffix(stem: string, ext: string, uuid: string)
    requires '.' !in stem
    ensures Renamed(stem, uuid) == uuid
    ensures Renamed(stem + "." + ext, uuid) == if ext == "" then uuid else uuid + "." + ext
  {
    FirstIndexAt(stem, '.', ext);
    assert stem + "." + ext == stem + ['.'] + ext;
    assert (stem + "." + ext)[|stem| + 1..] == ext;
  }

  lemma RotationOfSplit(key: string, dir: string, file: string, visibility: Visibility, uuid: string)
    requires SplitPath(key) == (dir, file) && dir != ""
    ensures DeriveRotatedKey(key, visibility, uuid) == Under(StoragePrefix(dir, visibility), Renamed(file, uuid))
  {
    var prefix, name := StoragePrefix(dir, visibility), Renamed(file, uuid);
    assert DeriveRotatedKey(key, visibility, uuid) == if prefix != "" then prefix + "/" + name else name;
  }

  lemma RotationOfBareKey(file: string, visibility: Visibility, uuid: string)
    requires '/' !in file
    ensures DeriveRotatedKey(file, visibility, uuid) ==
              Under(if visibility.Private? then "private" else "", Renamed(file, uuid))
  {
    var name := Renamed(file, uuid);
    assert SplitPath(file) == ("", file);
    assert DeriveRotatedKey(file, visibility, uuid) == if visibility.Private? then "private" + "/" + name else name;
  }

  lemma RotationInDirectory(dir: string, file: string, visibility: Visibility, uuid: string)
    requires dir != "" && '/' !in file
    ensures DeriveRotatedKey(dir + "/" + file, visibility, uuid) ==
              Under(StoragePrefix(dir, visibility), Renamed(file, uuid))
  {
    SplitJoined(dir, file);
    RotationOfSplit(dir + "/" + file, dir, file, visibility, uuid);
  }

  lemma PrivatePrefix(dir: string, name: string)
    ensures PRIVATE <= Under(StoragePrefix(dir, Private), name)
  {
    var p := StoragePrefix(dir, Private);
    assert PRIVATE <= p;
    assert (p + "/" + name)[..|PRIVATE|] == p[..|PRIVATE|];
  }

  lemma UnderRoot(directory: string, name: string)
    requires '/' !in name
    ensures PRIVATE <= Under(directory, name) <==> directory == "private" || PRIVATE <= directory
  {
    if directory == "" {
      assert PRIVATE[7] == '/';
      assert PRIVATE <= name ==> name[7] == PRIVATE[7];
    } else {
      PrivateRootOnly(directory, name);
    }
  }

  lemma LongerPrefix(a: string, b: string, c: string)
    requires a <= b
    ensures b <= c ==> a <= c
  {
  }

  /** What taking one `private/` off leaves. */
  lemma OneRootOff(clean: string)
    ensures var p := if PRIVATE <= clean then clean[|PRIVATE|..] else clean;
            p == "private" || PRIVATE <= p <==>
              clean == "private" || clean == "private/private" || PRIVATE + PRIVATE <= clean
  {
    assert PRIVATE + "private" == "private/private";
    if PRIVATE <= clean {
      var rest := clean[|PRIVATE|..];
      assert clean == PRIVATE + rest;
      if PRIVATE <= rest { assert (PRIVATE + PRIVATE) == clean[..16]; }
      if PRIVATE + PRIVATE <= clean { assert rest[..8] == clean[8..16] == PRIVATE; }
    } else {
      assert PRIVATE <= PRIVATE + PRIVATE && "private/private"[..8] == PRIVATE;
      LongerPrefix(PRIVATE, PRIVATE + PRIVATE, clean);
    }
  }

  /** Making a key private always puts it under `private/`.  Making it public takes it out
      of there unless its directory is `private` itself, or twice under it. */
  lemma RotationSide(dir: string, file: string, visibility: Visibility, uuid: string)
    requires dir != "" && '/' !in file && '/' !in Renamed(file, uuid)
    ensures PRIVATE <= DeriveRotatedKey(dir + "/" + file, visibility, uuid) <==>
              || visibility.Private?
              || StripSlashes(dir) == "private" || StripSlashes(dir) == "private/private"
              || PRIVATE + PRIVATE <= StripSlashes(dir)
  {
    RotationInDirectory(dir, file, visibility, uuid);
    if visibility.Private? {
      PrivatePrefix(dir, Renamed(file, uuid));
    } else {
      UnderRoot(StoragePrefix(dir, visibility), Renamed(file, uuid));
      OneRootOff(StripSlashes(dir));
    }
  }

  /** How an upload route spells the key it draws: prefix, uuid and extension; and which side
      of the boundary that is. */
  lemma DrawnKeyText(k: Key, visibility: Visibility)
    requires ProperKey(k) && k.rendition.None? && (k.hidden <==> visibility.Private?)
    ensures !k.compressed ==> Text(k) == StoragePrefix(k.base, visibility) + "/" + (k.uuid + "." + k.ext)
    ensures k.compressed ==> Text(k) == StoragePrefix(k.base, visibility) + "/" + (k.uuid + "_compressed" + "." + k.ext)
    ensures PRIVATE <= Text(k) <==> visibility.Private?
  {
    PrefixRefines(k.base, visibility);
    TextBoundary(k);
    assert Name(k) == Stem(k);
  }

  /** Going private and then public again restores the prefix and keeps the extension. */
  lemma RotationRoundTrip(k: Key, u: string, v: string)
    requires ProperKey(k) && k.rendition.None? && !k.hidden && Plain(u) && Plain(v)
    ensures var there := DeriveRotatedKey(Text(k), Private, u);
            && PRIVATE <= there
            && DeriveRotatedKey(there, Public, v) == Text(k.(uuid := v, compressed := false))
  {
    RotationRefines(k, Private, u);
    var r := Rotated(k, Private, u);
    TextBoundary(r);
    RotationRefines(r, Public, v);
  }

  /** A rendition stays on its parent's side of the boundary ... */
  lemma RenditionKeepsSide(a: Key, n: string)
    requires ProperKey(a) && a.rendition.None? && NormalizeRenditionName(n).Some?
    ensures PRIVATE <= DeriveRenditionKey(Text(a), n) <==> PRIVATE <= Text(a)
  {
    RenditionRefines(a, n);
    SameSide(a, NormalizeRenditionName(n).value);
  }

  lemma SameSide(a: Key, name: string)
    requires ProperKey(a) && name in CANONICAL_NAMES
    ensures PRIVATE <= Text(RenditionOf(a, name)) <==> PRIVATE <= Text(a)
  {
    TextBoundary(a);
    TextBoundary(RenditionOf(a, name));
  }

  lemma RenditionOfProper(a: Key, n: string)
    requires ProperKey(a) && n in CANONICAL_NAMES
    ensures ProperKey(RenditionOf(a, n)) && RenditionOf(a, n).rendition == Some(n)
  {
  }

  lemma TextDecides(a: Key, b: Key)
    requires ProperKey(a) && ProperKey(b)
    ensures Text(a) == Text(b) <==> a == b
  {
    if Text(a) == Text(b) { TextInjective(a, b); }
  }

  /** ... is never spelled like a primary key, and determines its parent (up to extension)
      and canonical name. */
  lemma RenditionKeysAreDistinct(a: Key, n: string, b: Key, m: string)
    requires ProperKey(a) && a.rendition.None? && NormalizeRenditionName(n).Some?
    requires ProperKey(b) && b.rendition.None? && NormalizeRenditionName(m).Some?
    ensures DeriveRenditionKey(Text(a), n) != Text(b)
    ensures DeriveRenditionKey(Text(a), n) == DeriveRenditionKey(Text(b), m) <==>
              NormalizeRenditionName(n) == NormalizeRenditionName(m) && a.(ext := b.ext) == b
  {
    var c, d := NormalizeRenditionName(n).value, NormalizeRenditionName(m).value;
    RenditionOfProper(a, c);
    RenditionOfProper(b, d);
    assert DeriveRenditionKey(Text(a), n) == Text(RenditionOf(a, c)) by { RenditionRefines(a, n); }
    assert DeriveRenditionKey(Text(b), m) == Text(RenditionOf(b, d)) by { RenditionRefines(b, m); }
    TextDecides(RenditionOf(a, c), b);
    TextDecides(RenditionOf(a, c), RenditionOf(b, d));
  }

  /** storage_prefix undoes itself exactly on the bases that are not already private. */
  lemma PrefixRoundTrip(base: string)
    requires base != "" && base[0] != '/' && base[|base| - 1] != '/'
    ensures StoragePrefix(StoragePrefix(base, Private), Public) == base <==> !(PRIVATE <= base)
  {
    StripProper(base);
    var p := StoragePrefix(base, Private);
    StripProper(p);
    if !(PRIVATE <= base) { assert p[|PRIVATE|..] == base; } else { assert |base[|PRIVATE|..]| < |base|; }
  }
}
