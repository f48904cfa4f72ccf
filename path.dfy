/** Engine-relative path resolution. */
module Path {
  import opened Wrappers
  import StringUtil
  import File

  datatype PathError = NotRelative(path: string)

  /** std::ranges::replace(path, '\\', '/'): every backslash becomes a slash. */
  function Slashed(s: string): (r: string)
    ensures |r| == |s|
    ensures '\\' !in r
    ensures forall i :: 0 <= i < |s| ==> r[i] == if s[i] == '\\' then '/' else s[i]
  {
    seq(|s|, i requires 0 <= i < |s| => if s[i] == '\\' then '/' else s[i])
  }

  /**
   * Path.cpp's own copy of replace_substring, used with "\\" and "/", does
   * character-wise what std::ranges::replace does.
   */
  lemma {:induction false} ReplaceBackslashesIsSlashed(s: string)
    ensures StringUtil.ReplaceAll(s, "\\", "/") == Slashed(s)
    decreases |s|
  {
    match StringUtil.Find(s, "\\", 0)
    case None =>
      NoBackslashBefore(s, |s|);
      SlashedUnchanged(s);
    case Some(k) =>
      ReplaceBackslashesIsSlashed(s[k + 1..]);
      NoBackslashBefore(s, k);
      assert s[k..k + 1] == "\\";
      SlashedSplit(s, k);
  }

  /** Where no backslash occurs as a substring, no character is a backslash. */
  lemma NoBackslashBefore(s: string, k: nat)
    requires k <= |s|
    requires forall i: nat :: i < k ==> !StringUtil.OccursAt(s, "\\", i)
    ensures forall i :: 0 <= i < k ==> s[i] != '\\'
  {
    forall i | 0 <= i < k ensures s[i] != '\\' {
      assert !StringUtil.OccursAt(s, "\\", i);
      assert s[i..i + 1] == [s[i]];
    }
  }

  /** A string without backslashes is its own slashed form. */
  lemma SlashedUnchanged(s: string)
    requires forall i :: 0 <= i < |s| ==> s[i] != '\\'
    ensures Slashed(s) == s
  {
  }

  lemma SlashedSplit(s: string, k: nat)
    requires k < |s| && s[k] == '\\' && forall i :: 0 <= i < k ==> s[i] != '\\'
    ensures Slashed(s) == s[..k] + "/" + Slashed(s[k + 1..])
  {
    var r := s[..k] + "/" + Slashed(s[k + 1..]);
    assert |r| == |s|;
    forall i | 0 <= i < |s| ensures Slashed(s)[i] == r[i] {
      if i > k {
        assert r[i] == Slashed(s[k + 1..])[i - k - 1];
      }
    }
  }

  /**
   * get_engine_path, with the executable's file name (read from the operating
   * system in the source) as a parameter: backslashes become slashes and
   * everything after the last '/' is erased; with no '/' nothing is left.
   */
  method GetEnginePath(moduleFileName: string) returns (r: string)
    ensures r == Slashed(moduleFileName)[..File.AfterLast(Slashed(moduleFileName), '/')]
    ensures '\\' !in r
    ensures r == [] || r[|r| - 1] == '/'
    ensures '/' !in Slashed(moduleFileName) ==> r == []
  {
    var s := StringUtil.ReplaceSubstring(moduleFileName, "\\", "/");
    ReplaceBackslashesIsSlashed(moduleFileName);
    r := s[..File.AfterLast(s, '/')];
  }

  /**
   * make_engine_relative_path_absolute, with the engine path as a parameter.
   * The path is refused when "./" occurs nowhere in it (the test looks at the
   * path before backslashes are converted). Otherwise backslashes become
   * slashes, two leading characters are dropped when the second is '/', one
   * otherwise, and the engine path is put in front.
   */
  function MakeEngineRelativePathAbsolute(enginePath: string, rel: string): (r: Result<string, PathError>)
    ensures r.Err? <==> StringUtil.Find(rel, "./", 0).None?
    ensures r.Ok? ==> |rel| >= 2 && |enginePath| <= |r.value|
    ensures r.Ok? ==> r.value[..|enginePath|] == enginePath
    ensures r.Ok? ==> r.value[|enginePath|..] == Slashed(rel)[if rel[1] == '/' then 2 else 1..]
    ensures r.Ok? && '\\' !in enginePath ==> '\\' !in r.value
  {
    if StringUtil.Find(rel, "./", 0).None? then Err(NotRelative(rel))
    else
      var finalPath := Slashed(rel);
      var stripped := if rel[1] == '/' then finalPath[2..] else finalPath[1..];
      Ok(enginePath + stripped)
  }

  /** A path that starts with ".\\", which the error message names as valid, is refused. */
  lemma BackslashRelativePathRefused()
    ensures MakeEngineRelativePathAbsolute("/engine/", ".\\tex.png").Err?
  {
    var rel := ".\\tex.png";
    assert forall i :: 0 <= i < |rel| ==> rel[i] != '/';
    NoSlashNotRelative(rel);
  }

  /** A path without any '/' holds no "./". */
  lemma NoSlashNotRelative(s: string)
    requires forall i :: 0 <= i < |s| ==> s[i] != '/'
    ensures StringUtil.Find(s, "./", 0).None?
  {
    forall k: nat | k + 2 <= |s| ensures !StringUtil.OccursAt(s, "./", k) {
      assert s[k..k + 2][1] == s[k + 1];
    }
  }

  /**
   * A path that does not start with "./" but holds "./" further on is
   * accepted, and only its first character is dropped.
   */
  lemma InnerDotSlashAccepted(enginePath: string, rel: string, i: nat)
    requires 0 < i && StringUtil.OccursAt(rel, "./", i) && rel[0] != '.' && rel[1] != '/'
    ensures !StartsRelative(rel)
    ensures MakeEngineRelativePathAbsolute(enginePath, rel) == Ok(enginePath + Slashed(rel)[1..])
  {
    assert StringUtil.Find(rel, "./", 0).Some?;
  }

  /** A path without backslashes is kept as it is. */
  lemma SlashedKeeps(s: string)
    requires '\\' !in s
    ensures Slashed(s) == s
  {
  }

  /** The path starts with "./" or ".\\", the two forms the error message allows. */
  predicate StartsRelative(rel: string)
  {
    |rel| >= 2 && rel[0] == '.' && (rel[1] == '/' || rel[1] == '\\')
  }

  /**
   * make_engine_relative_path_absolute as its error message describes it:
   * only a path starting with "./" or ".\\" is accepted, and exactly that
   * two-character prefix is replaced by the engine path.
   */
  function MakeEngineRelativePathAbsoluteFixed(enginePath: string, rel: string): (r: Result<string, PathError>)
    ensures r.Ok? <==> StartsRelative(rel)
    ensures r.Ok? ==> r.value == enginePath + Slashed(rel[2..])
    ensures r.Ok? && '\\' !in enginePath ==> '\\' !in r.value
  {
    if StartsRelative(rel) then Ok(enginePath + Slashed(rel)[2..]) else Err(NotRelative(rel))
  }

  /** Slashed works character by character, so it commutes with dropping a prefix. */
  lemma SlashedDrop(s: string, n: nat)
    requires n <= |s|
    ensures Slashed(s)[n..] == Slashed(s[n..])
  {
    assert forall i :: 0 <= i < |s| - n ==> Slashed(s)[n..][i] == Slashed(s[n..])[i];
  }

  /** Both versions agree on every path that starts with "./". */
  lemma FixedAgreesOnDotSlash(enginePath: string, rel: string)
    requires |rel| >= 2 && rel[..2] == "./"
    ensures MakeEngineRelativePathAbsolute(enginePath, rel) == MakeEngineRelativePathAbsoluteFixed(enginePath, rel)
  {
    assert rel[0] == '.' && rel[1] == '/';
    assert StringUtil.OccursAt(rel, "./", 0);
    SlashedDrop(rel, 2);
  }
}
