/** The parts of Python's `pathlib.PurePosixPath` that the modelled code
    reads: `name`, `suffix` and `stem` of a path given as a string. */
module PurePath {

  /** The characters after the last '/' of `p` (all of `p` when it has none). */
  function LastComponent(p: string): (r: string)
    ensures '/' !in r
    ensures |r| <= |p| && r == p[|p| - |r|..]
    ensures |r| < |p| ==> p[|p| - |r| - 1] == '/'
    decreases |p|
  {
    if p == [] || p[|p| - 1] == '/' then []
    else LastComponent(p[..|p| - 1]) + [p[|p| - 1]]
  }

  /** `PurePosixPath(p).name`: the last component that is neither empty
      nor ".", since pathlib drops both kinds when it parses a path; ""
      when no such component exists. */
  function Name(p: string): (r: string)
    ensures '/' !in r && r != "."
    decreases |p|
  {
    if p == [] then []
    else if p[|p| - 1] == '/' then Name(p[..|p| - 1])
    else
      var c := LastComponent(p);
      if c == "." then Name(p[..|p| - 1]) else c
  }

  /** A trailing separator does not change the name. */
  lemma NameIgnoresTrailingSeparator(p: string)
    ensures Name(p + "/") == Name(p)
  {
    assert (p + "/")[..|p|] == p;
  }

  /** A trailing "." component does not change the name. */
  lemma NameIgnoresTrailingDot(p: string)
    ensures Name(p + "/.") == Name(p)
  {
    var q := p + "/.";
    assert q[..|q| - 1] == p + "/";
    assert LastComponent(q) == "." by {
      assert LastComponent(q[..|q| - 1]) == [];
    }
    NameIgnoresTrailingSeparator(p);
  }

  /** A path made of separators alone has no name, however many there are
      (none included: the empty path has no name either). */
  lemma {:induction false} NameOfSeparatorsOnly(p: string)
    requires forall i :: 0 <= i < |p| ==> p[i] == '/'
    ensures Name(p) == ""
    decreases |p|
  {
    if p != [] {
      NameOfSeparatorsOnly(p[..|p| - 1]);
    }
  }

  /** "." alone has no name: its only component is dropped. With the
      lemmas above, the same holds for "./", "./." and the like. */
  lemma NameOfCurrentDirectory()
    ensures Name(['.']) == []
  {
    var dot: string := ['.'];
    assert dot[..0] == [];
    assert LastComponent(dot) == dot;
  }

  /** A file name placed after a directory prefix is the path's name. */
  lemma NameOfFileInDirectory(dir: string, file: string)
    requires dir == [] || dir[|dir| - 1] == '/'
    requires file != [] && file != "." && '/' !in file
    ensures Name(dir + file) == file
  {
    var p := dir + file;
    var c := LastComponent(p);
    assert p[|p| - 1] == file[|file| - 1];
    assert c == p[|dir|..] == file;
  }

  /** Python's `name.rfind('.')`: the index of the last dot, or -1. */
  function LastDot(s: string): (r: int)
    ensures -1 <= r < |s|
    ensures r >= 0 ==> s[r] == '.'
    ensures forall k :: r < k < |s| ==> s[k] != '.'
    decreases |s|
  {
    if s == [] then -1
    else if s[|s| - 1] == '.' then |s| - 1
    else LastDot(s[..|s| - 1])
  }

  /** The dot that starts a suffix: the last dot, provided it is neither
      the first nor the last character of the name. */
  predicate HasSuffixDot(name: string) {
    0 < LastDot(name) < |name| - 1
  }

  /** `PurePath.suffix` of a name: a dot followed by at least one
      character and no further dot, ending the name; "" when the name has
      no such dot. */
  function NameSuffix(name: string): (r: string)
    ensures r == [] || (|r| >= 2 && r[0] == '.' && '.' !in r[1..])
    ensures |r| <= |name| && r == name[|name| - |r|..]
    ensures r != [] <==>
      exists i :: 0 < i < |name| - 1 && name[i] == '.' && forall k :: i < k < |name| ==> name[k] != '.'
  {
    if HasSuffixDot(name) then name[LastDot(name)..]
    else
      assert forall i :: 0 < i < |name| - 1 && name[i] == '.' ==> LastDot(name) >= i;
      ""
  }

  /** `PurePath.stem` of a name: the name without its suffix. */
  function NameStem(name: string): (r: string)
    ensures r + NameSuffix(name) == name
  {
    if HasSuffixDot(name) then name[..LastDot(name)] else name
  }

  /** `PurePosixPath(p).suffix`. */
  function Suffix(p: string): string {
    NameSuffix(Name(p))
  }

  /** `PurePosixPath(p).stem`. */
  function Stem(p: string): string {
    NameStem(Name(p))
  }

  /** A stem followed by a dotted extension without further dots splits
      back into that stem and that extension. */
  lemma SplitExtension(stem: string, ext: string)
    requires stem != [] && ext != [] && '.' !in ext && '/' !in stem + ext
    ensures NameStem(stem + "." + ext) == stem
    ensures NameSuffix(stem + "." + ext) == "." + ext
  {
    var name := stem + "." + ext;
    var i := LastDot(name);
    assert name[|stem|] == '.';
    assert forall k :: |stem| < k < |name| ==> name[k] == ext[k - |stem| - 1];
    assert i == |stem|;
    assert name[..i] == stem;
    assert name[i..] == "." + ext;
  }

  /** The stem of `dir/stem.ext` is `stem`. */
  lemma StemOfFileInDirectory(dir: string, stem: string, ext: string)
    requires dir == [] || dir[|dir| - 1] == '/'
    requires stem != [] && ext != [] && '.' !in ext && '/' !in stem + ext
    ensures Stem(dir + (stem + "." + ext)) == stem
  {
    var file := stem + "." + ext;
    assert file[..|stem|] == stem && file[|stem|..] == "." + ext;
    assert '/' !in file;
    assert file != "." by { assert |file| >= 3; }
    NameOfFileInDirectory(dir, file);
    SplitExtension(stem, ext);
  }

  /** A name without a dot has no suffix. */
  lemma NoDotNoSuffix(name: string)
    requires '.' !in name
    ensures NameSuffix(name) == ""
  {
    assert LastDot(name) == -1;
  }
}
