/**
 * The bundle naming scheme of fabfile.py, together with the pieces of
 * Python's `str` and `os.path` (POSIX flavour) that it is built from.
 * fabfile.py is a Fabric 1 script, so these are Python 2 byte strings: their
 * `strip` and `lower` know only ASCII whitespace and ASCII letters.
 *
 * A repository tree exported with base name `proj` yields `proj.bundle`
 * for the main repository and `proj_<rel>.bundle` for the nested
 * repository at relative path `<rel>`; importing decodes a sibling file
 * name back into `<rel>`.
 */
module Naming {

  /* ---------------------------------------------------------------------
   * Python string primitives
   * ------------------------------------------------------------------- */

  /** The characters Python 2's `str.isspace()` accepts and `str.strip()`
      removes: space, tab, newline, vertical tab, form feed, carriage return. */
  predicate IsSpace(c: char) {
    c == ' ' || '\t' <= c <= '\r'
  }

  predicate NoSurroundingSpace(s: string) {
    s == [] || (!IsSpace(s[0]) && !IsSpace(s[|s| - 1]))
  }

  /** `s.lstrip()` */
  function TrimStart(s: string): (r: string)
    ensures |r| <= |s| && r == s[|s| - |r|..]
    ensures r == [] || !IsSpace(r[0])
    ensures forall i :: 0 <= i < |s| - |r| ==> IsSpace(s[i])
  {
    if s != [] && IsSpace(s[0]) then TrimStart(s[1..]) else s
  }

  /** `s.rstrip()` */
  function TrimEnd(s: string): (r: string)
    ensures |r| <= |s| && r == s[..|r|]
    ensures r == [] || !IsSpace(r[|r| - 1])
    ensures forall i :: |r| <= i < |s| ==> IsSpace(s[i])
  {
    if s != [] && IsSpace(s[|s| - 1]) then TrimEnd(s[..|s| - 1]) else s
  }

  /** `s.strip()`: the longest slice of `s` that neither starts nor ends with whitespace. */
  function Strip(s: string): (r: string)
    ensures NoSurroundingSpace(r)
    ensures NoSurroundingSpace(s) ==> r == s
  {
    TrimEnd(TrimStart(s))
  }

  /** `text.startswith(prefix)` */
  predicate StartsWith(text: string, prefix: string) {
    prefix <= text
  }

  /** `_remove_prefix(text, prefix)`, fabfile.py:22-25. */
  function RemovePrefix(text: string, prefix: string): (r: string)
    ensures StartsWith(text, prefix) ==> prefix + r == text
    ensures !StartsWith(text, prefix) ==> r == text
  {
    if StartsWith(text, prefix) then text[|prefix|..] else text
  }

  /** `s.rfind(c)`: the index of the last occurrence of `c`, or -1. */
  function RFind(s: string, c: char): (i: int)
    ensures -1 <= i < |s|
    ensures 0 <= i ==> s[i] == c
    ensures forall j :: i < j < |s| ==> s[j] != c
  {
    if s == [] then -1
    else if s[|s| - 1] == c then |s| - 1
    else RFind(s[..|s| - 1], c)
  }

  /** The last occurrence of `c` is unique: any index with the defining property is it. */
  lemma RFindIs(s: string, c: char, k: int)
    requires -1 <= k < |s|
    requires 0 <= k ==> s[k] == c
    requires forall j :: k < j < |s| ==> s[j] != c
    ensures RFind(s, c) == k
  {
  }

  function LowerChar(c: char): char {
    if 'A' <= c <= 'Z' then (c as int + 32) as char else c
  }

  /** Python 2's `s.lower()`: ASCII capitals become small letters, every
      other character stays. */
  function LowerAscii(s: string): (r: string)
    ensures |r| == |s|
    ensures forall i :: 0 <= i < |s| ==> r[i] == LowerChar(s[i])
  {
    if s == [] then [] else [LowerChar(s[0])] + LowerAscii(s[1..])
  }

  /** Python's `s[1:]`. */
  function DropFirst(s: string): (r: string)
    ensures s != [] ==> [s[0]] + r == s
    ensures s == [] ==> r == []
  {
    if s == [] then [] else s[1..]
  }

  predicate HasNonDot(s: string) {
    exists k :: 0 <= k < |s| && s[k] != '.'
  }

  /* ---------------------------------------------------------------------
   * os.path (posixpath)
   * ------------------------------------------------------------------- */

  /** `os.path.basename(p)`: what follows the last `/`. */
  function Basename(p: string): (r: string)
    ensures '/' !in r
    ensures |r| <= |p| && p[|p| - |r|..] == r
    ensures '/' !in p ==> r == p
  {
    p[RFind(p, '/') + 1..]
  }

  /** `os.path.splitext(p)`: the extension is the last `.`-suffix of the final
      path component, unless everything before that dot in the component is dots. */
  function Splitext(p: string): (r: (string, string))
    ensures r.0 + r.1 == p
  {
    var sep := RFind(p, '/');
    var dot := RFind(p, '.');
    if sep < dot && HasNonDot(p[sep + 1..dot]) then (p[..dot], p[dot..])
    else
      (p, [])
  }

  /** The extension `Splitext` splits off is empty, or a dot followed by
      neither another dot nor a `/`. */
  lemma SplitextExtension(p: string)
    ensures var e := Splitext(p).1;
      e == [] || (e[0] == '.' && '.' !in e[1..] && '/' !in e)
  {
    var sep := RFind(p, '/');
    var dot := RFind(p, '.');
    if sep < dot && HasNonDot(p[sep + 1..dot]) {
      var e := p[dot..];
      assert Splitext(p).1 == e;
      forall j | 0 <= j < |e| ensures e[j] != '/' && (j > 0 ==> e[j] != '.') {
        assert e[j] == p[dot + j];
      }
    }
  }

  function RStripSlashes(s: string): (r: string)
    ensures r <= s
    ensures r == [] || r[|r| - 1] != '/'
  {
    if s != [] && s[|s| - 1] == '/' then RStripSlashes(s[..|s| - 1]) else s
  }

  /** `os.path.dirname(p)`: everything up to the last `/`, trailing slashes
      removed unless the head consists of slashes only. */
  function Dirname(p: string): (r: string)
    ensures r <= p
    ensures '/' !in p ==> r == []
  {
    var head := p[..RFind(p, '/') + 1];
    if exists i :: 0 <= i < |head| && head[i] != '/' then RStripSlashes(head) else head
  }

  /** `os.path.join(a, b)` */
  function Join(a: string, b: string): (r: string)
    ensures |b| <= |r|
    ensures a != [] ==> r != []
    ensures b != [] && b[0] == '/' ==> r == b
    ensures (b == [] || b[0] != '/') ==> r == a + b || r == a + "/" + b
  {
    if b != [] && b[0] == '/' then b
    else if a == [] || a[|a| - 1] == '/' then a + b
    else a + "/" + b
  }

  lemma BasenameAfterSlash(prefix: string, name: string)
    requires prefix == [] || prefix[|prefix| - 1] == '/'
    requires '/' !in name
    ensures Basename(prefix + name) == name
  {
    RFindIs(prefix + name, '/', |prefix| - 1);
  }

  lemma DirnameOfJoin(dir: string, name: string)
    requires dir != [] && dir[|dir| - 1] != '/'
    requires name != [] && '/' !in name
    ensures Dirname(Join(dir, name)) == dir
  {
    var p := dir + "/" + name;
    assert Join(dir, name) == p;
    RFindIs(p, '/', |dir|);
    var head := p[..|dir| + 1];
    assert head == dir + "/";
    assert head[|dir| - 1] != '/';
    assert RStripSlashes(head) == RStripSlashes(dir);
  }

  /* ---------------------------------------------------------------------
   * Bundle naming, fabfile.py
   * ------------------------------------------------------------------- */

  /** The extension test of fabfile.py:204-205 and fabfile.py:260-261:
      the text after the dot, stripped, equals "bundle" ignoring case. */
  predicate HasBundleExtension(file: string)
    ensures HasBundleExtension(file) ==> Splitext(file).1 != [] && |Splitext(file).0| < |file|
  {
    var ext := Strip(DropFirst(Splitext(file).1));
    ext != [] && LowerAscii(ext) == "bundle"
  }

  /** The bundle base name, fabfile.py:204-208 (git_bundle) and fabfile.py:260-265
      (git_unbundle), which compute it by the same rule. */
  function BundleBase(file: string): (base: string)
    ensures '/' !in base
    ensures !HasBundleExtension(file) ==> base == Basename(file)
  {
    if HasBundleExtension(file) then Basename(Strip(Splitext(file).0)) else Basename(file)
  }

  /** The relative path of a discovered repository as it goes into a file
      name: `.` (the main repository) becomes empty, fabfile.py:221. */
  function ModuleName(rel: string): (m: string)
    ensures m == [] <==> rel == "." || rel == []
    ensures rel != "." ==> m == rel
  {
    if rel == "." then [] else rel
  }

  /** The bundle file name for the repository at relative path `rel`,
      fabfile.py:220-222. */
  function EncodeName(base: string, rel: string): (name: string)
    ensures ModuleName(rel) == [] ==> name == base + ".bundle"
    ensures ModuleName(rel) != [] ==> name == base + "_" + rel + ".bundle"
  {
    var m := ModuleName(rel);
    base + (if m == [] then [] else "_" + m) + ".bundle"
  }

  /** The module path decoded from a sibling bundle file, fabfile.py:289-292. */
  function DecodeModule(base: string, file: string): (m: string)
    ensures '/' !in m
  {
    RemovePrefix(RemovePrefix(Basename(Strip(Splitext(file).0)), base), "_")
  }

  /** The module directory a sibling bundle is imported into, fabfile.py:289-293. */
  function ModuleDir(repoDir: string, base: string, file: string): (dir: string)
    ensures repoDir != [] ==> dir != []
  {
    Join(repoDir, DecodeModule(base, file))
  }

  /** When `decode(encode(base, rel)) == rel` holds: one path segment each,
      no surrounding whitespace, and a main-bundle name that still has an extension. */
  predicate Encodable(base: string, rel: string) {
    && '/' !in base && '/' !in rel
    && NoSurroundingSpace(base) && NoSurroundingSpace(rel)
    && (ModuleName(rel) == [] ==> HasNonDot(base))
  }

  /* ---------------------------------------------------------------------
   * Lemmas
   * ------------------------------------------------------------------- */

  lemma {:induction false} TrimStartConcat(a: string, b: string)
    requires a != [] && a[|a| - 1] == '/'
    ensures TrimStart(a + b) == TrimStart(a) + b
    ensures TrimStart(a) != [] && TrimStart(a)[|TrimStart(a)| - 1] == '/'
  {
    assert (a + b)[0] == a[0];
    if IsSpace(a[0]) {
      assert a[1..] != [] by { assert !IsSpace('/'); }
      assert (a + b)[1..] == a[1..] + b;
      TrimStartConcat(a[1..], b);
      assert TrimStart(a) == TrimStart(a[1..]);
    } else {
      assert TrimStart(a) == a;
    }
  }

  lemma TrimStartClean(s: string)
    requires s != [] && !IsSpace(s[0])
    ensures TrimStart(s) == s
  {
  }

  lemma TrimEndClean(s: string)
    requires s != [] && !IsSpace(s[|s| - 1])
    ensures TrimEnd(s) == s
  {
  }

  /** Leading whitespace of a path stops at its last `/` at the latest. */
  lemma TrimStartThroughPrefix(prefix: string, stem: string) returns (y: string)
    requires prefix == [] || prefix[|prefix| - 1] == '/'
    requires stem != [] && !IsSpace(stem[0])
    ensures TrimStart(prefix + stem) == y + stem
    ensures y == [] || y[|y| - 1] == '/'
  {
    if prefix != [] {
      TrimStartConcat(prefix, stem);
      y := TrimStart(prefix);
    } else {
      assert prefix + stem == stem;
      TrimStartClean(stem);
      y := [];
    }
  }

  /** Stripping a path whose final component has clean ends leaves that component intact. */
  lemma StripKeepsLastComponent(prefix: string, stem: string)
    requires prefix == [] || prefix[|prefix| - 1] == '/'
    requires stem != [] && '/' !in stem && NoSurroundingSpace(stem)
    ensures Basename(Strip(prefix + stem)) == stem
  {
    var y := TrimStartThroughPrefix(prefix, stem);
    var s := y + stem;
    assert s[|s| - 1] == stem[|stem| - 1];
    TrimEndClean(s);
    assert Strip(prefix + stem) == s;
    BasenameAfterSlash(y, stem);
  }

  /** Characters appended without `c` do not move its last occurrence. */
  lemma RFindSkip(a: string, b: string, c: char)
    requires c !in b
    ensures RFind(a + b, c) == RFind(a, c)
  {
    var k := RFind(a, c);
    forall j | k < j < |a + b| ensures (a + b)[j] != c {
      if j >= |a| { assert (a + b)[j] == b[j - |a|]; }
    }
    RFindIs(a + b, c, k);
  }

  lemma LastDotOf(prefix: string, stem: string, ext: string)
    requires '.' !in ext
    ensures RFind(prefix + stem + "." + ext, '.') == |prefix| + |stem|
  {
    RFindSkip(prefix + stem + ".", ext, '.');
    assert RFind(prefix + stem + ".", '.') == |prefix| + |stem|;
  }

  lemma LastSlashOf(prefix: string, stem: string, ext: string)
    requires prefix == [] || prefix[|prefix| - 1] == '/'
    requires '/' !in stem && '/' !in ext
    ensures RFind(prefix + stem + "." + ext, '/') == |prefix| - 1
  {
    assert '/' !in stem + "." + ext;
    assert prefix + stem + "." + ext == prefix + (stem + "." + ext);
    RFindSkip(prefix, stem + "." + ext, '/');
    RFindIs(prefix, '/', |prefix| - 1);
  }

  lemma SplitextAppendExt(prefix: string, stem: string, ext: string)
    requires prefix == [] || prefix[|prefix| - 1] == '/'
    requires '/' !in stem && HasNonDot(stem)
    requires '/' !in ext && '.' !in ext
    ensures Splitext(prefix + stem + "." + ext) == (prefix + stem, "." + ext)
  {
    var p := prefix + stem + "." + ext;
    var dot := |prefix| + |stem|;
    assert p[|prefix|..dot] == stem;
    assert p[..dot] == prefix + stem;
    assert p[dot..] == "." + ext;
    LastDotOf(prefix, stem, ext);
    LastSlashOf(prefix, stem, ext);
    SplitextAt(p, |prefix|, dot);
  }

  /** `splitext` where the last `/` ends at `start` and the last `.` sits at
      `dot`, with something other than dots between them. */
  lemma SplitextAt(p: string, start: nat, dot: nat)
    requires start <= dot <= |p|
    requires RFind(p, '/') + 1 == start && RFind(p, '.') == dot
    requires HasNonDot(p[start..dot])
    ensures Splitext(p) == (p[..dot], p[dot..])
  {
  }

  /** The file name encoded for `rel` ends in `stem + ".bundle"`, where the stem
      is the base name followed by `_rel` for a nested repository. */
  function Stem(base: string, rel: string): string {
    base + (if ModuleName(rel) == [] then [] else "_" + ModuleName(rel))
  }

  lemma StemFacts(base: string, rel: string)
    requires Encodable(base, rel)
    ensures EncodeName(base, rel) == Stem(base, rel) + "." + "bundle"
    ensures '/' !in Stem(base, rel) && HasNonDot(Stem(base, rel))
    ensures Stem(base, rel) != [] && NoSurroundingSpace(Stem(base, rel))
  {
    var m := ModuleName(rel);
    var stem := Stem(base, rel);
    if m == [] {
      assert stem == base;
    } else {
      assert stem == base + "_" + m;
      assert stem[|base|] == '_';
      assert stem[|stem| - 1] == m[|m| - 1];
      assert base != [] ==> stem[0] == base[0];
    }
  }

  lemma LastComponentOfEncoded(dir: string, base: string, rel: string)
    requires dir == [] || dir[|dir| - 1] == '/'
    requires Encodable(base, rel)
    ensures Basename(Strip(Splitext(dir + EncodeName(base, rel)).0)) == Stem(base, rel)
  {
    var stem := Stem(base, rel);
    StemFacts(base, rel);
    assert dir + EncodeName(base, rel) == dir + stem + "." + "bundle";
    SplitextAppendExt(dir, stem, "bundle");
    StripKeepsLastComponent(dir, stem);
  }

  lemma RemovePrefixesOfStem(base: string, rel: string)
    ensures RemovePrefix(RemovePrefix(Stem(base, rel), base), "_") == ModuleName(rel)
  {
    var m := ModuleName(rel);
    if m == [] {
      assert Stem(base, rel) == base + [];
    } else {
      assert Stem(base, rel) == base + ("_" + m);
    }
  }

  /** Naming round trip, fabfile.py:220-222 against fabfile.py:289-292: decoding the
      name encoded for `rel` (in any directory) gives back the relative path. */
  lemma {:induction false} DecodeEncode(dir: string, base: string, rel: string)
    requires dir == [] || dir[|dir| - 1] == '/'
    requires Encodable(base, rel)
    ensures DecodeModule(base, dir + EncodeName(base, rel)) == ModuleName(rel)
  {
    LastComponentOfEncoded(dir, base, rel);
    RemovePrefixesOfStem(base, rel);
  }

  /** Distinct relative paths get distinct bundle names: the encoding is injective. */
  lemma EncodeInjective(base: string, rel1: string, rel2: string)
    requires Encodable(base, rel1) && Encodable(base, rel2)
    requires EncodeName(base, rel1) == EncodeName(base, rel2)
    ensures ModuleName(rel1) == ModuleName(rel2)
  {
    DecodeEncode([], base, rel1);
    DecodeEncode([], base, rel2);
    assert [] + EncodeName(base, rel1) == EncodeName(base, rel1);
    assert [] + EncodeName(base, rel2) == EncodeName(base, rel2);
  }

  lemma LowerIsBundle(ext: string)
    requires LowerAscii(ext) == "bundle"
    ensures '/' !in ext && '.' !in ext && ext != [] && NoSurroundingSpace(ext)
  {
    assert |ext| == 6;
    forall i | 0 <= i < 6 ensures 'a' <= LowerChar(ext[i]) <= 'z' {
      assert LowerChar(ext[i]) == "bundle"[i];
    }
    forall i | 0 <= i < 6 ensures ext[i] != '/' && ext[i] != '.' && !IsSpace(ext[i]) {
      assert 'a' <= LowerChar(ext[i]) <= 'z';
    }
  }

  /** The base-name rule strips an extension spelled "bundle" in any case,
      fabfile.py:204-206 and fabfile.py:260-263. */
  lemma BundleBaseStripsExtension(dir: string, stem: string, ext: string)
    requires dir == [] || dir[|dir| - 1] == '/'
    requires stem != [] && '/' !in stem && HasNonDot(stem) && NoSurroundingSpace(stem)
    requires LowerAscii(ext) == "bundle"
    ensures BundleBase(dir + stem + "." + ext) == stem
  {
    LowerIsBundle(ext);
    var file := dir + stem + "." + ext;
    SplitextAppendExt(dir, stem, ext);
    assert DropFirst("." + ext) == ext;
    assert HasBundleExtension(file);
    StripKeepsLastComponent(dir, stem);
  }

  lemma LowerOfBundle()
    ensures LowerAscii("bundle") == "bundle"
  {
    var r := LowerAscii("bundle");
    forall i | 0 <= i < 6 ensures r[i] == "bundle"[i] {
      assert r[i] == LowerChar("bundle"[i]);
    }
  }

  /** The main bundle `base.bundle` yields `base` back as the bundle base name. */
  lemma MainBundleBase(dir: string, base: string)
    requires dir == [] || dir[|dir| - 1] == '/'
    requires Encodable(base, ".")
    ensures BundleBase(dir + EncodeName(base, ".")) == base
  {
    StemFacts(base, ".");
    assert HasNonDot(base) && NoSurroundingSpace(base) && base != [] && '/' !in base by {
      assert Stem(base, ".") == base;
    }
    assert dir + EncodeName(base, ".") == dir + base + "." + "bundle" by {
      assert EncodeName(base, ".") == Stem(base, ".") + "." + "bundle";
      assert Stem(base, ".") == base;
    }
    LowerOfBundle();
    BundleBaseStripsExtension(dir, base, "bundle");
  }

  /** End to end: the import derives, from the main bundle's name, the base that
      decodes every sibling bundle back into its relative path. */
  lemma {:induction false} SiblingDecodesAgainstMain(dir: string, base: string, rel: string)
    requires dir == [] || dir[|dir| - 1] == '/'
    requires Encodable(base, ".") && Encodable(base, rel)
    ensures DecodeModule(BundleBase(dir + EncodeName(base, ".")), dir + EncodeName(base, rel)) == ModuleName(rel)
  {
    MainBundleBase(dir, base);
    DecodeEncode(dir, base, rel);
  }
}
