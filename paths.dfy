/**
 * The POSIX flavour of Python's `os.path` functions used on file names:
 * `basename`, `splitext` and `join`.
 */
module Paths {
  import opened Text

  /** `s.rfind(c)`: the position of the last `c` in `s`, or -1 when there is none. */
  function RFind(s: string, c: char): (i: int)
    ensures -1 <= i < |s|
    ensures i >= 0 ==> s[i] == c
    ensures forall j :: i < j < |s| ==> s[j] != c
  {
    if s == [] then -1
    else if s[|s| - 1] == c then |s| - 1
    else RFind(s[..|s| - 1], c)
  }

  /** `os.path.basename(p)`: everything after the last separator. */
  function Basename(p: string): (b: string)
    ensures '/' !in b
    ensures EndsWith(p, b)
  {
    p[RFind(p, '/') + 1..]
  }

  /**
   * `os.path.splitext(p)`: the extension is the text from the last dot of the
   * last path component on, provided that component has something other than
   * dots before that dot; otherwise the extension is empty.
   */
  function SplitExt(p: string): (parts: (string, string))
    ensures parts.0 + parts.1 == p
    ensures parts.1 == [] || (parts.1[0] == '.' && '.' !in parts.1[1..] && '/' !in parts.1)
  {
    var sep := RFind(p, '/');
    var dot := RFind(p, '.');
    if dot > sep && exists j :: sep + 1 <= j < dot && p[j] != '.' then
      assert forall k :: 0 <= k < |p| - dot ==> p[dot..][k] == p[dot + k];
      (p[..dot], p[dot..])
    else
      (p, "")
  }

  /** `os.path.splitext(p)[1][1:]`: the extension without its dot. */
  function ExtensionOf(p: string): (ext: string)
    ensures '.' !in ext && '/' !in ext
    ensures SplitExt(p).1 == [] ==> ext == []
    ensures SplitExt(p).1 != [] ==> SplitExt(p).1 == "." + ext
  {
    var e := SplitExt(p).1;
    if e == [] then [] else e[1..]
  }

  /** `os.path.splitext(os.path.basename(p))[0]`: the file name without directory and extension. */
  function Stem(p: string): (stem: string)
    ensures '/' !in stem
    ensures stem + SplitExt(Basename(p)).1 == Basename(p)
  {
    var b := Basename(p);
    var parts := SplitExt(b);
    assert parts.0 == b[..|parts.0|];
    parts.0
  }

  /** `os.path.join(folder, name)` on POSIX. */
  function Join(folder: string, name: string): (p: string)
    ensures '/' !in name && (name == [] || name[0] != '/') ==>
              exists q :: p == q + name && (q == [] || q[|q| - 1] == '/')
  {
    if name != [] && name[0] == '/' then name
    else if folder == [] || folder[|folder| - 1] == '/' then folder + name
    else folder + "/" + name
  }

  /** The name `export_compressed` gives the compressed copy of a file. */
  function CompressedName(stem: string, ext: string): string {
    stem + "_compressed." + ext
  }

  /** Where the separators and dots of a planned file name are. */
  lemma CompressedNameShape(stem: string, ext: string)
    requires '/' !in stem
    requires '.' !in ext && '/' !in ext
    ensures var name := CompressedName(stem, ext);
      '/' !in name && name[0] != '/' && name[|stem|] == '_' && name[|stem| + 11] == '.' &&
      name[|stem| + 12..] == ext
  {
    var name := CompressedName(stem, ext);
    forall k | 0 <= k < |name| ensures name[k] != '/' {
      if k < |stem| { assert name[k] == stem[k]; }
      else if k >= |stem| + 12 { assert name[k] == ext[k - |stem| - 12]; }
    }
  }

  /** `splitext` cuts at the last dot when a non-dot precedes it in the last component. */
  lemma SplitExtAt(p: string, j: int)
    requires RFind(p, '/') < j < RFind(p, '.') && p[j] != '.'
    ensures SplitExt(p).1 == p[RFind(p, '.')..]
  {
  }

  /** The last occurrence of `c` is the one after which `c` does not occur. */
  lemma RFindAt(s: string, c: char, i: int)
    requires 0 <= i < |s| && s[i] == c
    requires forall j :: i < j < |s| ==> s[j] != c
    ensures RFind(s, c) == i
  {
  }

  /** When `c` does not occur from `k` on, its last occurrence is before `k`. */
  lemma RFindBefore(s: string, c: char, k: int)
    requires 0 <= k <= |s|
    requires forall j :: k <= j < |s| ==> s[j] != c
    ensures RFind(s, c) < k
  {
  }

  /** The extension of any path that ends in the separator-free name `stem_compressed.ext`. */
  lemma ExtensionAfterPrefix(q: string, stem: string, ext: string)
    requires '/' !in stem
    requires '.' !in ext && '/' !in ext
    ensures ExtensionOf(q + CompressedName(stem, ext)) == ext
  {
    var name := CompressedName(stem, ext);
    CompressedNameShape(stem, ext);
    var p := q + name;
    var dotAt := |q| + |stem| + 11;
    forall j | |q| <= j < |p| ensures p[j] == name[j - |q|] && p[j] != '/' {
      assert p[j] == name[j - |q|];
    }
    forall j | dotAt < j < |p| ensures p[j] != '.' {
      assert p[j] == name[|stem| + 12..][j - dotAt - 1];
    }
    RFindAt(p, '.', dotAt);
    RFindBefore(p, '/', |q|);
    SplitExtAt(p, |q| + |stem|);
    var e := SplitExt(p).1;
    assert e == p[dotAt..] && e != [];
    assert e[1..] == name[|stem| + 12..];
  }

  /**
   * The extension the worker reads back from a planned output path is the one
   * the path was planned with, whatever the folder and the stem.
   */
  lemma ExtensionOfPlannedPath(folder: string, stem: string, ext: string)
    requires '/' !in stem
    requires '.' !in ext && '/' !in ext
    ensures ExtensionOf(Join(folder, CompressedName(stem, ext))) == ext
  {
    CompressedNameShape(stem, ext);
    var q :| Join(folder, CompressedName(stem, ext)) == q + CompressedName(stem, ext);
    ExtensionAfterPrefix(q, stem, ext);
  }
}
