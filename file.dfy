/** File-name extraction from a '/'-separated path. */
module File {
  import opened Wrappers

  /** std::string::find_last_of(c): the last index holding `c`, or None for npos. */
  function LastIndexOf(s: string, c: char): (r: Option<nat>)
    ensures r.Some? ==> r.value < |s| && s[r.value] == c
    ensures r.Some? ==> forall j :: r.value < j < |s| ==> s[j] != c
    ensures r.None? <==> c !in s
  {
    if s == [] then None
    else if s[|s| - 1] == c then Some(|s| - 1)
    else LastIndexOf(s[..|s| - 1], c)
  }

  /**
   * find_last_of(c) + 1: the index just after the last `c`. When `c` does not
   * occur, npos + 1 wraps around to 0.
   */
  function AfterLast(s: string, c: char): (r: nat)
    ensures r <= |s|
  {
    match LastIndexOf(s, c)
    case None => 0
    case Some(i) => i + 1
  }

  /** The text after the last '/', or the whole path when it has none. */
  function Basename(fp: string): string
  {
    fp[AfterLast(fp, '/')..]
  }

  /**
   * GetFileNameFromPath: the base name up to (not including) its last '.',
   * or the whole base name when it has no '.'.
   */
  function GetFileNameFromPath(fp: string): (r: string)
    ensures r <= Basename(fp)
    ensures '/' !in r
    ensures '.' !in Basename(fp) ==> r == Basename(fp)
    ensures '.' in Basename(fp) ==>
              |r| < |Basename(fp)| && Basename(fp)[|r|] == '.' &&
              forall j :: |r| < j < |Basename(fp)| ==> Basename(fp)[j] != '.'
    ensures '/' !in fp ==> Basename(fp) == fp
  {
    var b := Basename(fp);
    match LastIndexOf(b, '.')
    case None => b
    case Some(i) => b[..i]
  }

  /** The base name never holds a '/', and it is a suffix of the path. */
  lemma BasenameHasNoSlash(fp: string)
    ensures '/' !in Basename(fp)
    ensures Basename(fp) == fp[|fp| - |Basename(fp)|..]
  {
    var a := AfterLast(fp, '/');
    forall j | 0 <= j < |fp| - a ensures fp[a..][j] != '/' {
      assert fp[a..][j] == fp[a + j];
    }
  }
}
