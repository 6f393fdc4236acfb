/** String helpers with Python's `str` semantics (`in`, `find`, `split`, `lstrip`,
    `replace`, ASCII `lower`), used by the URL, monitor and ranking modules. */
module Text {
  import opened Wrappers

  predicate StartsWith(s: string, p: string) {
    |p| <= |s| && s[..|p|] == p
  }

  /** `p` occurs in `s` at index `i`. */
  predicate OccursAt(s: string, p: string, i: int) {
    0 <= i && i + |p| <= |s| && s[i..i + |p|] == p
  }

  /** `s.find(p, from)`: the first index at or after `from` where `p` occurs. */
  function Find(s: string, p: string, from: nat): (r: Option<nat>)
    ensures r.Some? ==> from <= r.value && OccursAt(s, p, r.value)
    decreases |s| - from
  {
    if from + |p| > |s| then None
    else if s[from..from + |p|] == p then Some(from)
    else Find(s, p, from + 1)
  }

  /** Python's `p in s`. */
  predicate Contains(s: string, p: string) {
    Find(s, p, 0).Some?
  }

  /** `find` returns the first occurrence: none is skipped. */
  lemma {:induction false} FindFirst(s: string, p: string, from: nat)
    ensures forall j :: from <= j && (Find(s, p, from).None? || j < Find(s, p, from).value) ==>
        !OccursAt(s, p, j)
    decreases |s| - from
  {
    if from + |p| <= |s| && s[from..from + |p|] != p {
      FindFirst(s, p, from + 1);
    }
  }

  lemma ContainsIff(s: string, p: string)
    ensures Contains(s, p) <==> exists i :: OccursAt(s, p, i)
  {
    FindFirst(s, p, 0);
  }

  /** Where the last piece of `s[from..].split(sep)` starts: Python scans for `sep`
      from the left without overlaps, restarting after each occurrence it finds. */
  function LastPieceStart(s: string, sep: string, from: nat): (k: nat)
    requires |sep| > 0 && from <= |s|
    ensures from <= k <= |s|
    ensures Find(s, sep, k) == None
    ensures k == from || (from + |sep| <= k && OccursAt(s, sep, k - |sep|))
    decreases |s| - from
  {
    match Find(s, sep, from)
    case None => from
    case Some(i) => LastPieceStart(s, sep, i + |sep|)
  }

  /** `s.split(sep)[-1]`. */
  function LastPiece(s: string, sep: string): (r: string)
    requires |sep| > 0
  {
    s[LastPieceStart(s, sep, 0)..]
  }

  /** `s.split(c)[0]`: everything before the first `c`. */
  function FirstPiece(s: string, c: char): (r: string)
    ensures |r| <= |s| && r == s[..|r|]
    ensures c !in r
    ensures |r| < |s| ==> s[|r|] == c
  {
    if s == [] then []
    else if s[0] == c then []
    else [s[0]] + FirstPiece(s[1..], c)
  }

  /** `s.lstrip(c)`: drops every leading `c`. */
  function LStrip(s: string, c: char): (r: string)
    ensures |r| <= |s| && r == s[|s| - |r|..]
    ensures r == [] || r[0] != c
    ensures forall i :: 0 <= i < |s| - |r| ==> s[i] == c
  {
    if s != [] && s[0] == c then LStrip(s[1..], c) else s
  }

  /** `s.replace(pat, rep)`: non-overlapping occurrences, scanned from the left. */
  function ReplaceAll(s: string, pat: string, rep: string): (r: string)
    requires |pat| > 0
    decreases |s|
  {
    if s == [] then []
    else if StartsWith(s, pat) then rep + ReplaceAll(s[|pat|..], pat, rep)
    else [s[0]] + ReplaceAll(s[1..], pat, rep)
  }

  /** A string in which `pat` does not occur is left as it is. */
  lemma {:induction false} ReplaceAbsent(s: string, pat: string, rep: string)
    requires |pat| > 0
    requires !Contains(s, pat)
    ensures ReplaceAll(s, pat, rep) == s
  {
    if s != [] {
      assert !OccursAt(s, pat, 0);
      assert !Contains(s[1..], pat) by {
        if Contains(s[1..], pat) {
          var i := Find(s[1..], pat, 0).value;
          assert s[1..][i..i + |pat|] == s[i + 1..i + 1 + |pat|];
          assert OccursAt(s, pat, i + 1);
          ContainsIff(s, pat);
        }
      }
      ReplaceAbsent(s[1..], pat, rep);
    }
  }

  /** Text that cannot start an occurrence is copied as it is. */
  lemma {:induction false} ReplaceSkips(a: string, rest: string, pat: string, rep: string)
    requires |pat| > 0
    requires pat[0] !in a
    ensures ReplaceAll(a + rest, pat, rep) == a + ReplaceAll(rest, pat, rep)
  {
    if a != [] {
      var s := a + rest;
      assert s[0] == a[0];
      assert !StartsWith(s, pat);
      assert s[1..] == a[1..] + rest;
      ReplaceSkips(a[1..], rest, pat, rep);
    } else {
      assert a + rest == rest;
    }
  }

  /** Text without the first character of `pat` is left as it is. */
  lemma ReplaceNone(s: string, pat: string, rep: string)
    requires |pat| > 0 && pat[0] !in s
    ensures ReplaceAll(s, pat, rep) == s
  {
    ReplaceSkips(s, [], pat, rep);
    assert s + [] == s;
  }

  /** Replacement copies the text before the first placeholder and puts `rep`
      in place of the placeholder, when that text cannot start an occurrence. */
  lemma ReplaceOne(a: string, pat: string, b: string, rep: string)
    requires |pat| > 0
    requires pat[0] !in a
    ensures ReplaceAll(a + pat + b, pat, rep) == a + rep + ReplaceAll(b, pat, rep)
  {
    ReplaceSkips(a, pat + b, pat, rep);
    assert a + pat + b == a + (pat + b);
    assert StartsWith(pat + b, pat);
    assert (pat + b)[|pat|..] == b;
  }

  /** ASCII lower-casing, as `str.lower()` acts on ASCII letters. */
  function LowerChar(c: char): char {
    if 'A' <= c <= 'Z' then (c as int + 32) as char else c
  }

  function Lower(s: string): (r: string)
    ensures |r| == |s|
    ensures forall i :: 0 <= i < |s| ==> r[i] == LowerChar(s[i])
  {
    seq(|s|, i requires 0 <= i < |s| => LowerChar(s[i]))
  }

  /** Python's `str.split(c)`: the pieces between occurrences of `c`. */
  function SplitOn(s: string, c: char): (r: seq<string>)
    ensures |r| >= 1
    ensures forall i :: 0 <= i < |r| ==> c !in r[i]
    ensures forall i, d :: 0 <= i < |r| && d in r[i] ==> d in s
    decreases |s|
  {
    var p := FirstPiece(s, c);
    if |p| == |s| then [s]
    else
      var rest := s[|p| + 1..];
      assert forall d :: d in p ==> d in s;
      assert forall d :: d in rest ==> d in s;
      [p] + SplitOn(rest, c)
  }

  /** `sep.join(pieces)` for a one-character separator. */
  function Join(pieces: seq<string>, c: char): string {
    if pieces == [] then []
    else if |pieces| == 1 then pieces[0]
    else pieces[0] + [c] + Join(pieces[1..], c)
  }

  /** Splitting undoes joining when no piece holds the separator. */
  lemma {:induction false} SplitJoin(pieces: seq<string>, c: char)
    requires |pieces| >= 1
    requires forall i :: 0 <= i < |pieces| ==> c !in pieces[i]
    ensures SplitOn(Join(pieces, c), c) == pieces
  {
    var s := Join(pieces, c);
    var p0 := pieces[0];
    FirstPieceOf(p0, c, if |pieces| == 1 then [] else [c] + Join(pieces[1..], c));
    if |pieces| > 1 {
      assert s == p0 + ([c] + Join(pieces[1..], c));
      assert s[|p0| + 1..] == Join(pieces[1..], c);
      SplitJoin(pieces[1..], c);
    } else {
      assert s == p0 + [];
    }
  }

  lemma {:induction false} FirstPieceOf(a: string, c: char, rest: string)
    requires c !in a
    requires rest == [] || rest[0] == c
    ensures FirstPiece(a + rest, c) == a
  {
    if a != [] {
      assert (a + rest)[1..] == a[1..] + rest;
      FirstPieceOf(a[1..], c, rest);
    }
  }
}
