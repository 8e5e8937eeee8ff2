/**
 * File-system naming used by both ledger classes: the sanitised snapshot
 * basename, Python's `Path.stem`, `Path.parent` and `Path.relative_to`.
 *
 * A path is the sequence of its components; joining with `/` is sequence
 * concatenation. A configured directory string is kept as one opaque
 * component (see `PathOf`).
 */
module Paths {

  type Path = seq<string>

  /** The directory a configured string names: `Path("")` is the current directory. */
  function PathOf(s: string): (p: Path)
    ensures s == "" <==> p == []
  {
    if s == "" then [] else [s]
  }

  /** Characters the regular-expression class `\w` matches (ASCII view of it). */
  predicate IsWordChar(c: char) {
    ('a' <= c <= 'z') || ('A' <= c <= 'Z') || ('0' <= c <= '9') || c == '_'
  }

  /** `re.sub(r"[\W]", "_", s)`: every non-word character becomes `_`. */
  function Sanitize(s: string): (r: string)
    ensures |r| == |s|
  {
    if s == [] then []
    else [if IsWordChar(s[0]) then s[0] else '_'] + Sanitize(s[1..])
  }

  /** Sanitising keeps every word character in place and turns every other character into `_`. */
  lemma {:induction false} SanitizeAt(s: string, i: nat)
    requires i < |s|
    ensures IsWordChar(s[i]) ==> Sanitize(s)[i] == s[i]
    ensures !IsWordChar(s[i]) ==> Sanitize(s)[i] == '_'
  {
    if i > 0 {
      SanitizeAt(s[1..], i - 1);
    }
  }

  /** A sanitised name holds only word characters. */
  lemma SanitizeWordOnly(s: string)
    ensures forall i :: 0 <= i < |Sanitize(s)| ==> IsWordChar(Sanitize(s)[i])
  {
    forall i | 0 <= i < |Sanitize(s)| ensures IsWordChar(Sanitize(s)[i]) {
      SanitizeAt(s, i);
    }
  }

  /** A name made of word characters only is left as it is. */
  lemma SanitizeFixesWordNames(s: string)
    requires forall i :: 0 <= i < |s| ==> IsWordChar(s[i])
    ensures Sanitize(s) == s
  {
    forall i | 0 <= i < |s| ensures Sanitize(s)[i] == s[i] {
      SanitizeAt(s, i);
    }
  }

  /** Sanitising twice is sanitising once. */
  lemma SanitizeIdempotent(s: string)
    ensures Sanitize(Sanitize(s)) == Sanitize(s)
  {
    SanitizeWordOnly(s);
    SanitizeFixesWordNames(Sanitize(s));
  }

  /** The snapshot file name of a test node: the sanitised node name followed by `.db`. */
  function Basename(nodeName: string): (b: string)
    ensures |b| == |nodeName| + 3
    ensures b[..|nodeName|] == Sanitize(nodeName)
    ensures b[|nodeName|..] == ".db"
  {
    Sanitize(nodeName) + ".db"
  }

  /** A snapshot file name never contains a path separator, so it is one path component. */
  lemma BasenameHasNoSeparator(nodeName: string)
    ensures '/' !in Basename(nodeName)
  {
    var b := Basename(nodeName);
    SanitizeWordOnly(nodeName);
    forall i | 0 <= i < |b| ensures b[i] != '/' {
      if i < |nodeName| {
        assert b[i] == Sanitize(nodeName)[i];
      } else {
        assert b[i] == ".db"[i - |nodeName|];
      }
    }
  }

  /** Two different parametrised node names can share one snapshot file. */
  lemma BasenameCollides()
    ensures Basename("test_x[a-b]") == Basename("test_x[a_b]")
    ensures "test_x[a-b]" != "test_x[a_b]"
  {
    assert "test_x[a-b]"[8] != "test_x[a_b]"[8];
  }

  /** `directory / (basename + ".db")`: where a test node's snapshot lives. */
  function SnapshotPath(directory: Path, nodeName: string): (p: Path)
    ensures Parent(p) == directory
    ensures Name(p) == Basename(nodeName)
  {
    directory + [Basename(nodeName)]
  }

  /** What pytest's `request` tells about the running test. */
  datatype Request = Request(
    nodeName: string,  // `request.node.name`
    path: Path,        // `request.path`, the test file
    rootpath: Path,    // `request.config.rootpath`
    moduleFile: Path)  // `request.module.__file__`

  /** Index of the last occurrence of `c` in `s`, or -1 (Python's `str.rfind`). */
  function RFind(s: string, c: char): (r: int)
    ensures -1 <= r < |s|
    ensures r >= 0 ==> s[r] == c && c !in s[r + 1..]
    ensures r == -1 ==> c !in s
  {
    if s == [] then -1
    else if s[|s| - 1] == c then |s| - 1
    else
      var r := RFind(s[..|s| - 1], c);
      assert s == s[..|s| - 1] + [s[|s| - 1]];
      r
  }

  /**
   * `PurePath.stem` of a file name: the name without its last suffix. A
   * suffix starts at the last `.`, and only when that dot is neither the
   * first nor the last character.
   */
  function Stem(name: string): (stem: string)
    ensures stem <= name
    ensures stem != name ==> |stem| > 0 && name[|stem|] == '.' && '.' !in name[|stem| + 1..]
    ensures stem != name <==> exists j :: 0 < j < |name| - 1 && name[j] == '.' && '.' !in name[j + 1..]
  {
    var i := RFind(name, '.');
    if 0 < i < |name| - 1 then name[..i] else name
  }

  /** The stem of a module file: `test_foo.py` gives `test_foo`, a dotfile or a name without dot is kept. */
  lemma StemOfModuleFile()
    ensures Stem("test_foo.py") == "test_foo"
    ensures Stem(".env") == ".env"
    ensures Stem("conftest") == "conftest"
  {
    assert "test_foo.py"[..8] == "test_foo";
  }

  /** `PurePath.name`: the last component, or the empty string for an empty path. */
  function Name(p: Path): string {
    if p == [] then "" else p[|p| - 1]
  }

  /** `PurePath.parent`: the path without its last component (the root is its own parent). */
  function Parent(p: Path): (q: Path)
    ensures q <= p && (p != [] ==> |q| == |p| - 1)
  {
    if p == [] then [] else p[..|p| - 1]
  }

  datatype RelativePath = Relative(path: Path) | NotRelative

  /** `PurePath.relative_to`: the rest of `p` after `base`, or the ValueError case. */
  function RelativeTo(p: Path, base: Path): (r: RelativePath)
    ensures r.Relative? <==> base <= p
    ensures r.Relative? ==> base + r.path == p
  {
    if base <= p then Relative(p[|base|..]) else NotRelative
  }
}
