/** The music-preference list of a profile (db/database.py): counting a play of a
    genre or artist, and ranking the preferences by play count. */
module Preferences {
  import opened Wrappers
  import opened Models

  predicate Matches(p: MusicPreference, name: string, prefType: string) {
    p.name == name && p.prefType == prefType
  }

  /** No two preferences share a (name, type) pair. */
  predicate UniquePairs(prefs: seq<MusicPreference>) {
    forall i, j :: 0 <= i < j < |prefs| ==>
      !(prefs[i].name == prefs[j].name && prefs[i].prefType == prefs[j].prefType)
  }

  /** The first preference for (name, type), as `$elemMatch` and the positional `$` find it. */
  function IndexOf(prefs: seq<MusicPreference>, name: string, prefType: string): (r: Option<nat>)
    ensures r.Some? ==> r.value < |prefs| && Matches(prefs[r.value], name, prefType)
    ensures r.Some? ==> forall j :: 0 <= j < r.value ==> !Matches(prefs[j], name, prefType)
    ensures r.None? ==> forall j :: 0 <= j < |prefs| ==> !Matches(prefs[j], name, prefType)
  {
    if prefs == [] then None
    else if Matches(prefs[0], name, prefType) then Some(0)
    else match IndexOf(prefs[1..], name, prefType)
      case None => None
      case Some(i) => Some(i + 1)
  }

  /** The play count recorded for (name, type), 0 when there is none. */
  function CountFor(prefs: seq<MusicPreference>, name: string, prefType: string): int {
    match IndexOf(prefs, name, prefType)
    case None => 0
    case Some(i) => prefs[i].count
  }

  /** `add_music_preference` on one profile: push `{name, type, count: 1}` when no
      entry has that (name, type), otherwise increment that entry's count and stamp it. */
  function AddPreference(prefs: seq<MusicPreference>, name: string, prefType: string, now: int): (r: seq<MusicPreference>)
    ensures IndexOf(prefs, name, prefType).None? ==> r == prefs + [MusicPreference(name, prefType, 1, now)]
    ensures IndexOf(prefs, name, prefType).Some? ==> |r| == |prefs|
    ensures forall j :: 0 <= j < |prefs| && !Matches(prefs[j], name, prefType) ==> r[j] == prefs[j]
    ensures IndexOf(prefs, name, prefType).Some? ==> var i := IndexOf(prefs, name, prefType).value;
      r[i] == prefs[i].(count := prefs[i].count + 1, lastUpdated := now)
  {
    match IndexOf(prefs, name, prefType)
    case None => prefs + [MusicPreference(name, prefType, 1, now)]
    case Some(i) => prefs[i := prefs[i].(count := prefs[i].count + 1, lastUpdated := now)]
  }

  /** Counting a play adds one to that pair's count and leaves every other pair's
      count as it was. */
  lemma AddPreferenceCounts(prefs: seq<MusicPreference>, name: string, prefType: string, now: int,
    otherName: string, otherType: string)
    ensures CountFor(AddPreference(prefs, name, prefType, now), name, prefType) == CountFor(prefs, name, prefType) + 1
    ensures !(otherName == name && otherType == prefType) ==>
      CountFor(AddPreference(prefs, name, prefType, now), otherName, otherType) == CountFor(prefs, otherName, otherType)
  {
    var r := AddPreference(prefs, name, prefType, now);
    match IndexOf(prefs, name, prefType)
    case None =>
      IndexOfAppend(prefs, MusicPreference(name, prefType, 1, now), name, prefType);
      IndexOfAppend(prefs, MusicPreference(name, prefType, 1, now), otherName, otherType);
    case Some(i) =>
      IndexOfSameUpTo(prefs, r, name, prefType, i);
      IndexOfSameUpTo(prefs, r, otherName, otherType, i);
  }

  lemma {:induction false} IndexOfAppend(prefs: seq<MusicPreference>, x: MusicPreference, name: string, prefType: string)
    ensures IndexOf(prefs + [x], name, prefType) ==
      if IndexOf(prefs, name, prefType).Some? then IndexOf(prefs, name, prefType)
      else if Matches(x, name, prefType) then Some(|prefs|) else None
  {
    if prefs == [] {
      assert prefs + [x] == [x];
    } else {
      assert (prefs + [x])[1..] == prefs[1..] + [x];
      IndexOfAppend(prefs[1..], x, name, prefType);
    }
  }

  /** Two lists that agree except at position `i`, whose entries both match or both
      fail to match the pair, give the same first index for it. */
  lemma IndexOfSameUpTo(a: seq<MusicPreference>, b: seq<MusicPreference>, name: string, prefType: string, i: nat)
    requires |a| == |b| && i < |a|
    requires forall j :: 0 <= j < |a| && j != i ==> a[j] == b[j]
    requires Matches(a[i], name, prefType) <==> Matches(b[i], name, prefType)
    ensures IndexOf(a, name, prefType) == IndexOf(b, name, prefType)
  {
  }

  /** Counting a play never creates a second entry for a pair. */
  lemma AddPreferenceKeepsPairsUnique(prefs: seq<MusicPreference>, name: string, prefType: string, now: int)
    requires UniquePairs(prefs)
    ensures UniquePairs(AddPreference(prefs, name, prefType, now))
  {
    var r := AddPreference(prefs, name, prefType, now);
    if IndexOf(prefs, name, prefType).Some? {
      var i := IndexOf(prefs, name, prefType).value;
      forall j, k | 0 <= j < k < |r|
        ensures !(r[j].name == r[k].name && r[j].prefType == r[k].prefType)
      {
        assert r[j].name == prefs[j].name && r[j].prefType == prefs[j].prefType;
        assert r[k].name == prefs[k].name && r[k].prefType == prefs[k].prefType;
      }
    } else {
      forall j, k | 0 <= j < k < |r|
        ensures !(r[j].name == r[k].name && r[j].prefType == r[k].prefType)
      {
        if k == |prefs| {
          assert !Matches(prefs[j], name, prefType);
        }
      }
    }
  }

  // ---- ranking ---------------------------------------------------------------

  predicate SortedByCount(s: seq<MusicPreference>) {
    forall i, j :: 0 <= i < j < |s| ==> s[i].count >= s[j].count
  }

  /** Puts `x` after every entry whose count is at least its own. */
  function InsertByCount(s: seq<MusicPreference>, x: MusicPreference): (r: seq<MusicPreference>)
    ensures |r| == |s| + 1
    ensures multiset(r) == multiset(s) + multiset{x}
    ensures r[0] == x || (s != [] && r[0] == s[0])
    ensures SortedByCount(s) ==> SortedByCount(r)
  {
    if s == [] then [x]
    else if s[0].count >= x.count then
      var rest := InsertByCount(s[1..], x);
      assert s == [s[0]] + s[1..];
      KeepFirstSorted(s, x, rest);
      [s[0]] + rest
    else
      assert SortedByCount(s) ==> SortedByCount([x] + s) by {
        if SortedByCount(s) {
          PrependSorted(x, s);
        }
      }
      [x] + s
  }

  /** The step of `InsertByCount` that keeps the first entry in front: sortedness
      carries over when the rest starts with `x` or with the old second entry. */
  lemma KeepFirstSorted(s: seq<MusicPreference>, x: MusicPreference, rest: seq<MusicPreference>)
    requires s != [] && s[0].count >= x.count && rest != []
    requires rest[0] == x || (|s| > 1 && rest[0] == s[1])
    requires SortedByCount(s[1..]) ==> SortedByCount(rest)
    ensures SortedByCount(s) ==> SortedByCount([s[0]] + rest)
  {
    if SortedByCount(s) {
      assert SortedByCount(s[1..]);
      assert rest[0].count <= s[0].count;
      PrependSorted(s[0], rest);
    }
  }

  /** An entry whose count is at least the first count of a sorted list can go in front. */
  lemma PrependSorted(h: MusicPreference, s: seq<MusicPreference>)
    requires SortedByCount(s) && (s == [] || h.count >= s[0].count)
    ensures SortedByCount([h] + s)
  {
    var r := [h] + s;
    forall i, j | 0 <= i < j < |r|
      ensures r[i].count >= r[j].count
    {
      if i == 0 {
        assert r[j] == s[j - 1];
        assert s[0].count >= s[j - 1].count;
      } else {
        assert r[i] == s[i - 1] && r[j] == s[j - 1];
      }
    }
  }

  /** `sorted(prefs, key=count, reverse=True)`, built by inserting each entry after
      the earlier entries of equal count. */
  function SortByCount(s: seq<MusicPreference>): (r: seq<MusicPreference>)
    ensures SortedByCount(r)
    ensures multiset(r) == multiset(s)
    ensures |r| == |s|
  {
    if s == [] then []
    else
      assert s == s[..|s| - 1] + [s[|s| - 1]];
      InsertByCount(SortByCount(s[..|s| - 1]), s[|s| - 1])
  }

  /** `a` is `b` with some entries left out and the others kept in their order. */
  predicate Subsequence(a: seq<MusicPreference>, b: seq<MusicPreference>)
    decreases |b|
  {
    if a == [] then true
    else if b == [] then false
    else (a[0] == b[0] && Subsequence(a[1..], b[1..])) || Subsequence(a, b[1..])
  }

  /** The entries of the given type, in order. */
  function OfType(prefs: seq<MusicPreference>, prefType: string): (r: seq<MusicPreference>)
    ensures forall i :: 0 <= i < |r| ==> r[i].prefType == prefType
    ensures forall p :: p in prefs && p.prefType == prefType ==> p in r
    ensures multiset(r) <= multiset(prefs)
    ensures forall p :: multiset(r)[p] == (if p.prefType == prefType then multiset(prefs)[p] else 0)
    ensures Subsequence(r, prefs)
  {
    if prefs == [] then []
    else
      var rest := OfType(prefs[1..], prefType);
      var r := if prefs[0].prefType == prefType then [prefs[0]] + rest else rest;
      OfTypeOrder(prefs, rest, r);
      OfTypeCounts(prefs, prefType, rest, r);
      CountsOfType(prefs, prefType, r);
      r
  }

  /** Keeping or dropping the head of a list keeps a subsequence of its tail a
      subsequence of the whole list. */
  lemma OfTypeOrder(prefs: seq<MusicPreference>, rest: seq<MusicPreference>, r: seq<MusicPreference>)
    requires prefs != [] && Subsequence(rest, prefs[1..])
    requires r == [prefs[0]] + rest || r == rest
    ensures Subsequence(r, prefs)
  {
    if r == [prefs[0]] + rest {
      assert r[0] == prefs[0] && r[1..] == rest;
    }
  }

  /** Keeping the head exactly when it has the type carries the per-entry counts of
      the tail over to the whole list. */
  lemma OfTypeCounts(prefs: seq<MusicPreference>, prefType: string, rest: seq<MusicPreference>, r: seq<MusicPreference>)
    requires prefs != []
    requires forall p :: multiset(rest)[p] == (if p.prefType == prefType then multiset(prefs[1..])[p] else 0)
    requires r == if prefs[0].prefType == prefType then [prefs[0]] + rest else rest
    ensures forall p :: multiset(r)[p] == (if p.prefType == prefType then multiset(prefs)[p] else 0)
  {
    var h := prefs[0];
    assert multiset(prefs) == multiset{h} + multiset(prefs[1..]) by {
      assert prefs == [h] + prefs[1..];
    }
    if h.prefType == prefType {
      assert multiset(r) == multiset{h} + multiset(rest);
    }
  }

  /** A list holding exactly the entries of a type, counted with multiplicity, holds
      each such entry and no more of anything than `prefs` does. */
  lemma CountsOfType(prefs: seq<MusicPreference>, prefType: string, r: seq<MusicPreference>)
    requires forall p :: multiset(r)[p] == (if p.prefType == prefType then multiset(prefs)[p] else 0)
    ensures forall p :: p in prefs && p.prefType == prefType ==> p in r
    ensures multiset(r) <= multiset(prefs)
  {
    forall p | p in prefs && p.prefType == prefType
      ensures p in r
    {
      assert multiset(prefs)[p] > 0;
    }
  }

  /** The length of Python's `s[:limit]` for a list of length `n`: `limit` clamped to
      `n`, or `n + limit` clamped to 0 when the limit is negative. */
  function SliceLength(n: nat, limit: int): nat {
    if limit >= 0 then (if limit < n then limit else n)
    else (if n + limit > 0 then n + limit else 0)
  }

  /** Python's `s[:limit]`: a negative limit counts from the end. */
  function SliceTo<T>(s: seq<T>, limit: int): (r: seq<T>)
    ensures |r| == SliceLength(|s|, limit)
    ensures r == s[..|r|]
  {
    if limit >= 0 then (if limit < |s| then s[..limit] else s)
    else if |s| + limit > 0 then s[..|s| + limit] else []
  }

  /** The candidates `get_top_preferences` ranks: all preferences, or those of the
      given type when a non-empty type is given. */
  function Candidates(prefs: seq<MusicPreference>, prefType: Option<string>): seq<MusicPreference> {
    if prefType.Some? && prefType.value != "" then OfType(prefs, prefType.value) else prefs
  }

  /** `get_top_preferences` on a stored profile. */
  function TopPreferences(prefs: seq<MusicPreference>, prefType: Option<string>, limit: int): (r: seq<MusicPreference>)
    ensures SortedByCount(r)
    ensures multiset(r) <= multiset(Candidates(prefs, prefType))
    ensures |r| == SliceLength(|Candidates(prefs, prefType)|, limit)
    ensures prefType.Some? && prefType.value != "" ==> forall i :: 0 <= i < |r| ==> r[i].prefType == prefType.value
  {
    var candidates := Candidates(prefs, prefType);
    var sorted := SortByCount(candidates);
    var r := SliceTo(sorted, limit);
    PrefixFacts(sorted, |r|);
    assert forall i :: 0 <= i < |r| ==> r[i] in multiset(candidates);
    r
  }

  /** A prefix of a list sorted by count is sorted, and is a sub-multiset of it. */
  lemma PrefixFacts(s: seq<MusicPreference>, k: nat)
    requires k <= |s|
    ensures SortedByCount(s) ==> SortedByCount(s[..k])
    ensures multiset(s[..k]) <= multiset(s)
    ensures multiset(s) == multiset(s[..k]) + multiset(s[k..])
  {
    assert s == s[..k] + s[k..];
  }

  /** The chosen preferences are the most played ones: every candidate left out has a
      count no greater than any chosen one. */
  lemma TopPreferencesAreTop(prefs: seq<MusicPreference>, prefType: Option<string>, limit: int)
    ensures var r := TopPreferences(prefs, prefType, limit);
      forall x, y :: x in multiset(Candidates(prefs, prefType)) - multiset(r) && y in r ==> y.count >= x.count
  {
    var sorted := SortByCount(Candidates(prefs, prefType));
    var r := SliceTo(sorted, limit);
    PrefixFacts(sorted, |r|);
    SortedSplit(sorted, |r|);
    forall x, y | x in multiset(Candidates(prefs, prefType)) - multiset(r) && y in r
      ensures y.count >= x.count
    {
      assert x in multiset(sorted[|r|..]);
    }
  }

  /** In a list sorted by count, everything before a cut counts at least as much as
      everything after it. */
  lemma SortedSplit(s: seq<MusicPreference>, k: nat)
    requires SortedByCount(s) && k <= |s|
    ensures forall a, b :: a in s[..k] && b in s[k..] ==> a.count >= b.count
  {
    forall a, b | a in s[..k] && b in s[k..]
      ensures a.count >= b.count
    {
      var i :| 0 <= i < k && s[i] == a;
      var j :| 0 <= j < |s[k..]| && s[k..][j] == b;
      assert s[k + j] == b;
    }
  }
}
