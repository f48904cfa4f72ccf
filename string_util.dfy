/**
 * String helpers of the engine: substring search, in-place substring
 * replacement and ASCII lower-casing.
 */
module StringUtil {
  import opened Wrappers

  /** `pat` occurs in `s` starting at index `i`. */
  predicate OccursAt(s: string, pat: string, i: nat)
  {
    i + |pat| <= |s| && s[i..i + |pat|] == pat
  }

  /**
   * std::string::find(pat, pos): the first index at or after `pos` where `pat`
   * occurs, or None for npos.
   */
  function Find(s: string, pat: string, pos: nat): (r: Option<nat>)
    ensures r.Some? ==> pos <= r.value && OccursAt(s, pat, r.value)
    ensures forall i: nat :: pos <= i && (r.None? || i < r.value) ==> !OccursAt(s, pat, i)
    decreases |s| - pos
  {
    if pos + |pat| > |s| then None
    else if OccursAt(s, pat, pos) then Some(pos)
    else Find(s, pat, pos + 1)
  }

  /** Searching from `pos` is searching the suffix that starts at `pos`. */
  lemma FindInSuffix(s: string, pat: string, pos: nat)
    requires pos <= |s|
    ensures Find(s, pat, pos) == match Find(s[pos..], pat, 0)
                                 case None => None
                                 case Some(j) => Some(pos + j)
  {
    var t := s[pos..];
    OccursShifted(s, pat, pos);
    var a, b := Find(s, pat, pos), Find(t, pat, 0);
    if a.Some? {
      assert OccursAt(t, pat, a.value - pos);
    }
    if b.Some? {
      assert OccursAt(s, pat, pos + b.value);
    }
  }

  /** A match in the suffix at pos is a match pos places further on. */
  lemma OccursShifted(s: string, pat: string, pos: nat)
    requires pos <= |s|
    ensures forall j: nat :: OccursAt(s[pos..], pat, j) == OccursAt(s, pat, pos + j)
  {
    var t := s[pos..];
    forall j: nat ensures OccursAt(t, pat, j) == OccursAt(s, pat, pos + j) {
      if j + |pat| <= |t| {
        assert t[j..j + |pat|] == s[pos + j..pos + j + |pat|];
      }
    }
  }

  /**
   * What replace_substring leaves behind: every occurrence of `from`, found
   * left to right, is replaced by `to`, and scanning resumes after the
   * inserted text, so a `to` that contains `from` is not rescanned.
   */
  function ReplaceAll(s: string, from: string, to: string): string
    requires from != []
    decreases |s|, 1
  {
    match Find(s, from, 0)
    case None => s
    case Some(k) => ReplacedAt(s, from, to, k)
  }

  /** The text with the match at k replaced and the rest replaced in turn. */
  function ReplacedAt(s: string, from: string, to: string, k: nat): string
    requires from != [] && k + |from| <= |s|
    decreases |s|, 0
  {
    s[..k] + to + ReplaceAll(s[k + |from|..], from, to)
  }

  /**
   * replace_substring: replaces the occurrences of `from` in `str` by `to`.
   * An empty `from` leaves the string as it is. The loop terminates even when
   * `to` contains `from`, because each search starts after the inserted `to`.
   */
  method ReplaceSubstring(str: string, from: string, to: string) returns (r: string)
    ensures from == [] ==> r == str
    ensures from != [] ==> r == ReplaceAll(str, from, to)
    ensures from != [] && Find(str, from, 0).None? ==> r == str
  {
    r := str;
    if from != [] {
      var pos: nat := 0;
      // r is the text already produced followed by the text still to scan
      ghost var done: string := [];
      ghost var rest: string := str;
      var found := Find(r, from, pos);
      while found.Some?
        invariant r == done + rest && pos == |done|
        invariant found == Find(r, from, pos)
        invariant ReplaceAll(str, from, to) == done + ReplaceAll(rest, from, to)
        decreases |rest|
      {
        var k := found.value;
        ReplaceStep(r, done, rest, from, to, k);
        r, pos := r[..k] + to + r[k + |from|..], k + |to|;
        done, rest := done + rest[..k - |done|] + to, rest[k - |done| + |from|..];
        found := Find(r, from, pos);
      }
      ReplaceDone(r, done, rest, from, to);
    }
  }

  /**
   * One turn of the replacement loop: the match k found after the text
   * already produced is, shifted by the produced length, the first match of
   * the text still to scan, and replacing it moves the scanned part, with
   * `to` in place of `from`, to the text produced without changing the final
   * result.
   */
  lemma ReplaceStep(r: string, done: string, rest: string, from: string, to: string, k: nat)
    requires from != [] && r == done + rest && Find(r, from, |done|) == Some(k)
    ensures |done| <= k && k - |done| + |from| <= |rest|
    ensures r[..k] + to + r[k + |from|..] == (done + rest[..k - |done|] + to) + rest[k - |done| + |from|..]
    ensures done + ReplaceAll(rest, from, to) ==
      (done + rest[..k - |done|] + to) + ReplaceAll(rest[k - |done| + |from|..], from, to)
  {
    ShiftedMatch(r, done, rest, from, k);
    ReplaceTail(done, rest, from, to, k);
    SpliceAt(r, done, rest, k, |from|, to);
  }

  /** Replacing in the text after `done`, whose first match is at k - |done|. */
  lemma ReplaceTail(done: string, rest: string, from: string, to: string, k: nat)
    requires from != [] && |done| <= k && Find(rest, from, 0) == Some(k - |done|)
    ensures k - |done| + |from| <= |rest|
    ensures done + ReplaceAll(rest, from, to) ==
      (done + rest[..k - |done|] + to) + ReplaceAll(rest[k - |done| + |from|..], from, to)
  {
    var j := k - |done|;
    ReplaceAllUnfold(rest, from, to, j);
    AppendFour(done, rest[..j], to, ReplaceAll(rest[j + |from|..], from, to));
  }

  /** A match found after `done` is, shifted, the first match of what follows it. */
  lemma ShiftedMatch(r: string, done: string, rest: string, pat: string, k: nat)
    requires r == done + rest && Find(r, pat, |done|) == Some(k)
    ensures |done| <= k && Find(rest, pat, 0) == Some(k - |done|)
  {
    FindMatchInSuffix(r, pat, |done|, k);
    assert r[|done|..] == rest;
  }

  /** The first match from pos is, shifted by pos, the first match of the suffix at pos. */
  lemma FindMatchInSuffix(s: string, pat: string, pos: nat, k: nat)
    requires pos <= |s| && Find(s, pat, pos) == Some(k)
    ensures Find(s[pos..], pat, 0) == Some(k - pos)
  {
    FindInSuffix(s, pat, pos);
  }

  lemma AppendFour(a: string, b: string, c: string, d: string)
    ensures a + (b + c + d) == (a + b + c) + d
  {
  }

  /** Replacing n characters at k, within the text after `done`, is a splice
      of the text after `done`. */
  lemma SpliceAt(r: string, done: string, rest: string, k: nat, n: nat, to: string)
    requires r == done + rest && |done| <= k && k - |done| + n <= |rest|
    ensures r[..k] + to + r[k + n..] == (done + rest[..k - |done|] + to) + rest[k - |done| + n..]
  {
    assert r[..k] == done + rest[..k - |done|];
    assert r[k + n..] == rest[k - |done| + n..];
  }

  /** ReplaceAll with its first match at j. */
  lemma ReplaceAllUnfold(t: string, from: string, to: string, j: nat)
    requires from != [] && Find(t, from, 0) == Some(j)
    ensures j + |from| <= |t|
    ensures ReplaceAll(t, from, to) == t[..j] + to + ReplaceAll(t[j + |from|..], from, to)
  {
    assert ReplaceAll(t, from, to) == ReplacedAt(t, from, to, j);
  }

  /** Once no occurrence is left after the text produced, the rest is kept as it is. */
  lemma ReplaceDone(r: string, done: string, rest: string, from: string, to: string)
    requires from != [] && r == done + rest && Find(r, from, |done|).None?
    ensures done + ReplaceAll(rest, from, to) == r
  {
    FindInSuffix(r, from, |done|);
    assert r[|done|..] == rest;
  }

  /** Replacing a single character by text that lacks it removes that character. */
  lemma {:induction false} ReplaceAllRemovesChar(s: string, c: char, to: string)
    requires c !in to
    ensures c !in ReplaceAll(s, [c], to)
    decreases |s|
  {
    match Find(s, [c], 0)
    case None =>
      forall i | 0 <= i < |s| ensures s[i] != c {
        assert !OccursAt(s, [c], i);
        assert s[i..i + 1] == [s[i]];
      }
    case Some(k) =>
      forall i | 0 <= i < k ensures s[i] != c {
        assert !OccursAt(s, [c], i);
        assert s[i..i + 1] == [s[i]];
      }
      ReplaceAllRemovesChar(s[k + 1..], c, to);
  }

  /** Replacing a substring with itself leaves the string unchanged. */
  lemma {:induction false} ReplaceAllSelf(s: string, from: string)
    requires from != []
    ensures ReplaceAll(s, from, from) == s
    decreases |s|
  {
    match Find(s, from, 0)
    case None =>
    case Some(k) =>
      ReplaceAllSelf(s[k + |from|..], from);
      assert s[..k] + from + s[k + |from|..] == s by {
        assert s[k..k + |from|] == from;
        assert s == s[..k] + s[k..k + |from|] + s[k + |from|..];
      }
  }

  predicate IsAsciiUpper(c: char)
  {
    'A' <= c <= 'Z'
  }

  /** std::tolower in the "C" locale: only 'A'..'Z' change. */
  function ToLowerChar(c: char): (r: char)
    ensures !IsAsciiUpper(r)
    ensures IsAsciiUpper(c) ==> r as int == c as int + 32
    ensures !IsAsciiUpper(c) ==> r == c
  {
    if IsAsciiUpper(c) then (c as int + 32) as char else c
  }

  /** to_lower: maps ToLowerChar over the string. */
  function ToLower(s: string): (r: string)
    ensures |r| == |s|
    ensures forall i :: 0 <= i < |s| ==> r[i] == ToLowerChar(s[i])
  {
    if s == [] then [] else [ToLowerChar(s[0])] + ToLower(s[1..])
  }

  /** to_lower keeps the length and leaves no ASCII capital letter. */
  lemma ToLowerNoUpper(s: string)
    ensures |ToLower(s)| == |s|
    ensures forall i :: 0 <= i < |s| ==> !IsAsciiUpper(ToLower(s)[i])
  {
  }

  /** Lower-casing twice is lower-casing once. */
  lemma ToLowerIdempotent(s: string)
    ensures ToLower(ToLower(s)) == ToLower(s)
  {
    var r := ToLower(s);
    assert forall i :: 0 <= i < |r| ==> ToLower(r)[i] == r[i];
  }
}
