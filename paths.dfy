/**
 * The part of Rust's `std::path` that the scanner relies on: splitting the
 * final component of a path into stem and extension, and
 * `Path::with_extension`.
 *
 * A path is modelled as the directory it lives in plus its final component,
 * which is the shape of every path a directory listing yields
 * (`directory.join(file_name)`).
 */
module Paths {
  import opened Wrappers

  /** A path: the directory part and the final component (file name). */
  datatype Path = Path(dir: string, name: string)

  /** Rust's `file_name()` is `None` for an empty final component and for `..`. */
  predicate HasFileName(p: Path)
  {
    p.name != "" && p.name != ".."
  }

  /** Position of the last '.' in `s`, if any. */
  function LastDot(s: string): (r: Option<nat>)
    ensures r.Some? ==> r.value < |s| && s[r.value] == '.'
    ensures r.Some? ==> forall j :: r.value < j < |s| ==> s[j] != '.'
    ensures r.None? ==> forall j :: 0 <= j < |s| ==> s[j] != '.'
  {
    if s == [] then None
    else if s[|s| - 1] == '.' then Some(|s| - 1)
    else LastDot(s[..|s| - 1])
  }

  /**
   * Rust splits a file name at its last dot, except that a dot at position 0
   * (a "hidden" file such as `.profile`) does not start an extension.
   * The result is the stem and the optional extension.
   */
  function SplitAtDot(name: string): (string, Option<string>)
  {
    if name == ".." then (name, None)
    else
      match LastDot(name)
      case None => (name, None)
      case Some(i) => if i == 0 then (name, None) else (name[..i], Some(name[i + 1..]))
  }

  /** Rust's `Path::file_stem`. */
  function FileStem(p: Path): (r: Option<string>)
    ensures r.Some? <==> HasFileName(p)
    ensures r.Some? ==> r.value != "" && r.value <= p.name
  {
    if HasFileName(p) then Some(SplitAtDot(p.name).0) else None
  }

  /** Rust's `Path::extension`. */
  function Extension(p: Path): (r: Option<string>)
    ensures r.Some? ==> HasFileName(p)
    ensures r.Some? ==> FileStem(p).Some? && FileStem(p).value + "." + r.value == p.name
  {
    if HasFileName(p) then SplitAtDot(p.name).1 else None
  }

  /**
   * Rust's `Path::with_extension`: the path is cut right after its stem and,
   * unless the new extension is empty, '.' and the extension are appended.
   * A path without a file name is returned unchanged.
   */
  function WithExtension(p: Path, ext: string): (r: Path)
    ensures r.dir == p.dir
    ensures !HasFileName(p) ==> r == p
  {
    match FileStem(p)
    case None => p
    case Some(stem) => Path(p.dir, if ext == "" then stem else stem + "." + ext)
  }

  /**
   * Replacing (or adding) an extension that contains no dot yields a path
   * whose extension is exactly that one and whose stem is the old stem.
   */
  lemma {:induction false} WithExtensionSetsExtension(p: Path, ext: string)
    requires HasFileName(p)
    requires ext != "" && '.' !in ext
    ensures Extension(WithExtension(p, ext)) == Some(ext)
    ensures FileStem(WithExtension(p, ext)) == FileStem(p)
  {
    var stem := FileStem(p).value;
    var n := stem + "." + ext;
    assert WithExtension(p, ext).name == n;
    LastDotOfSuffixFree(stem, ext);
    assert LastDot(n) == Some(|stem|);
    assert n[..|stem|] == stem;
    assert n[|stem| + 1..] == ext;
  }

  /** The last dot of `s + "." + t`, when `t` has none, is the joining one. */
  lemma {:induction false} LastDotOfSuffixFree(s: string, t: string)
    requires '.' !in t
    ensures LastDot(s + "." + t) == Some(|s|)
  {
    var n := s + "." + t;
    if t == [] {
      assert n[|n| - 1] == '.';
    } else {
      assert n[..|n| - 1] == s + "." + t[..|t| - 1];
      assert n[|n| - 1] == t[|t| - 1];
      LastDotOfSuffixFree(s, t[..|t| - 1]);
    }
  }

  /** A name without any dot has no last dot. */
  lemma LastDotAbsent(s: string)
    requires forall j :: 0 <= j < |s| ==> s[j] != '.'
    ensures LastDot(s) == None
  {
  }
}
