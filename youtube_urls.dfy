/** `clean_youtube_url` and `is_youtube_url` (bot/utils.py, duplicated in main.py).

    A URL is split the way `urllib.parse.urlparse` splits it: the fragment starts at the
    first `#`, the query at the first `?` before it, and everything in front of the query
    (scheme, host, path, params) is the `base`, which the cleaner copies unchanged. */
module YoutubeUrls {
  import opened Wrappers
  import opened Text

  datatype UrlParts = UrlParts(base: string, query: string, fragment: string)

  /** One `name=value` pair of a parsed query. */
  datatype Param = Param(name: string, value: string)

  function IndexOfChar(s: string, c: char): (r: Option<nat>)
    ensures r.Some? ==> r.value < |s| && s[r.value] == c && c !in s[..r.value]
    ensures r.None? ==> c !in s
  {
    var p := FirstPiece(s, c);
    if |p| == |s| then None else Some(|p|)
  }

  function SplitUrl(url: string): (p: UrlParts)
    ensures '#' !in p.base && '?' !in p.base && '#' !in p.query
  {
    var (beforeFragment, fragment) :=
      match IndexOfChar(url, '#')
      case None => (url, "")
      case Some(i) => (url[..i], url[i + 1..]);
    match IndexOfChar(beforeFragment, '?')
    case None => UrlParts(beforeFragment, "", fragment)
    case Some(j) => UrlParts(beforeFragment[..j], beforeFragment[j + 1..], fragment)
  }

  /** `urlunparse`: an empty query or fragment leaves no `?` or `#` behind. */
  function UnsplitUrl(p: UrlParts): string {
    p.base + (if p.query == "" then "" else "?" + p.query)
      + (if p.fragment == "" then "" else "#" + p.fragment)
  }

  /** One `&`-separated piece as `parse_qs` reads it (blank values not kept):
      a piece without `=` or with an empty value is dropped. */
  function ParsePiece(piece: string): Option<Param> {
    var name := FirstPiece(piece, '=');
    if |name| == |piece| || |name| + 1 == |piece| then None
    else Some(Param(name, piece[|name| + 1..]))
  }

  function ParsePieces(pieces: seq<string>): seq<Param> {
    if pieces == [] then []
    else
      (match ParsePiece(pieces[0]) case None => [] case Some(p) => [p])
        + ParsePieces(pieces[1..])
  }

  function ParseQuery(q: string): seq<Param> {
    ParsePieces(SplitOn(q, '&'))
  }

  /** The query parameters of a URL, in order. */
  function Params(url: string): seq<Param> {
    ParseQuery(SplitUrl(url).query)
  }

  /** `parse_qs(q)[name]`: every value given for `name`, in order. */
  function ValuesOf(ps: seq<Param>, name: string): seq<string> {
    if ps == [] then []
    else (if ps[0].name == name then [ps[0].value] else []) + ValuesOf(ps[1..], name)
  }

  function Pairs(name: string, values: seq<string>): seq<Param> {
    if values == [] then [] else [Param(name, values[0])] + Pairs(name, values[1..])
  }

  /** `urlencode({name: values}, doseq=True)`. */
  function EncodePieces(name: string, values: seq<string>): seq<string> {
    if values == [] then [] else [name + "=" + values[0]] + EncodePieces(name, values[1..])
  }

  function Encode(name: string, values: seq<string>): string {
    Join(EncodePieces(name, values), '&')
  }

  /** The query `clean_youtube_url` keeps: `v` when present (whether or not `list`
      is), otherwise `list`, otherwise nothing. */
  function EssentialQuery(ps: seq<Param>): string {
    var vs := ValuesOf(ps, "v");
    var ls := ValuesOf(ps, "list");
    if vs != [] && ls != [] then Encode("v", vs)
    else if ls != [] then Encode("list", ls)
    else if vs != [] then Encode("v", vs)
    else ""
  }

  function CleanYoutubeUrl(url: string): string {
    UnsplitUrl(UrlParts(SplitUrl(url).base, EssentialQuery(Params(url)), ""))
  }

  lemma CleanedShape(url: string)
    ensures var r := CleanYoutubeUrl(url);
      && '#' !in r
      && SplitUrl(r) == UrlParts(SplitUrl(url).base, EssentialQuery(Params(url)), "")
      && Params(r) ==
        var vs := ValuesOf(Params(url), "v");
        if vs != [] then Pairs("v", vs) else Pairs("list", ValuesOf(Params(url), "list"))
  {
    ParamsClean(url);
    var ps := Params(url);
    EssentialShape(ps);
    ResplitCleaned(SplitUrl(url).base, EssentialQuery(ps));
    EssentialParses(ps);
  }

  /** Every value in the parsed query of any URL is clean. */
  lemma ParamsClean(url: string)
    ensures forall n, i :: 0 <= i < |ValuesOf(Params(url), n)| ==> CleanValue(ValuesOf(Params(url), n)[i])
  {
    var q := SplitUrl(url).query;
    forall n
      ensures forall i :: 0 <= i < |ValuesOf(Params(url), n)| ==> CleanValue(ValuesOf(Params(url), n)[i])
    {
      ParsedValuesClean(SplitOn(q, '&'), n);
    }
  }

  /** Parsing the essential query gives the kept pairs back. */
  lemma EssentialParses(ps: seq<Param>)
    requires forall n, i :: 0 <= i < |ValuesOf(ps, n)| ==> CleanValue(ValuesOf(ps, n)[i])
    ensures ParseQuery(EssentialQuery(ps)) ==
      var vs := ValuesOf(ps, "v");
      if vs != [] then Pairs("v", vs) else Pairs("list", ValuesOf(ps, "list"))
  {
    var vs := ValuesOf(ps, "v");
    var ls := ValuesOf(ps, "list");
    if vs != [] {
      EncodeParses("v", vs);
    } else if ls != [] {
      EncodeParses("list", ls);
    } else {
      assert SplitOn("", '&') == [""];
      assert ParsePiece("") == None;
    }
  }

  /** Values produced by the query parser are never empty and hold no `&` or `#`. */
  predicate CleanValue(v: string) {
    v != "" && '&' !in v && '#' !in v
  }

  lemma {:induction false} ParsedValuesClean(pieces: seq<string>, name: string)
    requires forall i :: 0 <= i < |pieces| ==> '&' !in pieces[i] && '#' !in pieces[i]
    ensures forall i :: 0 <= i < |ValuesOf(ParsePieces(pieces), name)| ==>
      CleanValue(ValuesOf(ParsePieces(pieces), name)[i])
  {
    if pieces != [] {
      ParsedValuesClean(pieces[1..], name);
      var head := match ParsePiece(pieces[0]) case None => [] case Some(p) => [p];
      var tail := ParsePieces(pieces[1..]);
      ValuesOfAppend(head, tail, name);
      if ParsePiece(pieces[0]).Some? {
        var p := ParsePiece(pieces[0]).value;
        var nm := FirstPiece(pieces[0], '=');
        assert p.value == pieces[0][|nm| + 1..];
        forall c | c in p.value ensures c in pieces[0] {
          var k :| 0 <= k < |p.value| && p.value[k] == c;
          assert pieces[0][|nm| + 1 + k] == c;
        }
      }
    }
  }

  lemma {:induction false} ValuesOfAppend(a: seq<Param>, b: seq<Param>, name: string)
    ensures ValuesOf(a + b, name) == ValuesOf(a, name) + ValuesOf(b, name)
  {
    if a == [] {
      assert a + b == b;
    } else {
      assert (a + b)[0] == a[0];
      assert (a + b)[1..] == a[1..] + b;
      ValuesOfAppend(a[1..], b, name);
    }
  }

  /** The essential query is an encoding of clean values under `v` or `list`. */
  lemma EssentialShape(ps: seq<Param>)
    requires forall n, i :: 0 <= i < |ValuesOf(ps, n)| ==> CleanValue(ValuesOf(ps, n)[i])
    ensures '#' !in EssentialQuery(ps)
  {
    var vs := ValuesOf(ps, "v");
    var ls := ValuesOf(ps, "list");
    if vs != [] {
      EncodeHasNo("v", vs, '#');
    } else if ls != [] {
      EncodeHasNo("list", ls, '#');
    }
  }

  lemma {:induction false} EncodeHasNo(name: string, values: seq<string>, c: char)
    requires c !in name && c != '=' && c != '&'
    requires forall i :: 0 <= i < |values| ==> c !in values[i]
    ensures c !in Encode(name, values)
  {
    EncodePiecesHaveNo(name, values, c);
    JoinHasNo(EncodePieces(name, values), '&', c);
  }

  lemma {:induction false} EncodePiecesHaveNo(name: string, values: seq<string>, c: char)
    requires c !in name && c != '='
    requires forall i :: 0 <= i < |values| ==> c !in values[i]
    ensures |EncodePieces(name, values)| == |values|
    ensures forall i :: 0 <= i < |values| ==>
      EncodePieces(name, values)[i] == name + "=" + values[i] && c !in EncodePieces(name, values)[i]
  {
    if values != [] {
      EncodePiecesHaveNo(name, values[1..], c);
    }
  }

  lemma {:induction false} JoinHasNo(pieces: seq<string>, sep: char, c: char)
    requires c != sep
    requires forall i :: 0 <= i < |pieces| ==> c !in pieces[i]
    ensures c !in Join(pieces, sep)
  {
    if |pieces| > 1 {
      JoinHasNo(pieces[1..], sep, c);
    }
  }

  /** Re-splitting a cleaned URL finds the same base and query and no fragment. */
  lemma ResplitCleaned(base: string, q: string)
    requires '#' !in base && '?' !in base && '#' !in q
    ensures SplitUrl(UnsplitUrl(UrlParts(base, q, ""))) == UrlParts(base, q, "")
    ensures '#' !in UnsplitUrl(UrlParts(base, q, ""))
  {
    var r := UnsplitUrl(UrlParts(base, q, ""));
    UnsplitHasNoHash(base, q);
    assert IndexOfChar(r, '#') == None;
    if q != "" {
      QueryResplit(base, q);
    } else {
      assert r == base;
    }
  }

  lemma UnsplitHasNoHash(base: string, q: string)
    requires '#' !in base && '#' !in q
    ensures '#' !in UnsplitUrl(UrlParts(base, q, ""))
  {
    if q != "" {
      assert UnsplitUrl(UrlParts(base, q, "")) == base + ("?" + q);
    }
  }

  /** The first `?` of `base + "?" + q` is the one put there, when `base` has none. */
  lemma QueryResplit(base: string, q: string)
    requires '?' !in base && q != ""
    ensures var r := UnsplitUrl(UrlParts(base, q, ""));
      IndexOfChar(r, '?') == Some(|base|) && r[..|base|] == base && r[|base| + 1..] == q
  {
    var r := UnsplitUrl(UrlParts(base, q, ""));
    assert r == base + "?" + q;
    assert r[|base|] == '?' && r[..|base|] == base;
    assert r[|base| + 1..] == q;
  }

  /** Parsing the encoding of clean values gives back exactly those pairs. */
  lemma {:induction false} EncodeParses(name: string, values: seq<string>)
    requires values != []
    requires name == "v" || name == "list"
    requires forall i :: 0 <= i < |values| ==> CleanValue(values[i])
    ensures ParseQuery(Encode(name, values)) == Pairs(name, values)
  {
    EncodePiecesHaveNo(name, values, '&');
    SplitJoin(EncodePieces(name, values), '&');
    ParseEncodedPieces(name, values);
  }

  lemma {:induction false} ParseEncodedPieces(name: string, values: seq<string>)
    requires name == "v" || name == "list"
    requires forall i :: 0 <= i < |values| ==> CleanValue(values[i])
    ensures ParsePieces(EncodePieces(name, values)) == Pairs(name, values)
  {
    if values != [] {
      var piece := name + "=" + values[0];
      assert '=' !in name;
      assert piece == name + ("=" + values[0]);
      FirstPieceOf(name, '=', "=" + values[0]);
      assert FirstPiece(piece, '=') == name;
      assert |piece| == |name| + 1 + |values[0]| && values[0] != "";
      assert piece[|name| + 1..] == values[0];
      assert ParsePiece(piece) == Some(Param(name, values[0]));
      ParseEncodedPieces(name, values[1..]);
    }
  }

  /** Cleaning a URL a second time changes nothing. */
  lemma CleanIdempotent(url: string)
    ensures CleanYoutubeUrl(CleanYoutubeUrl(url)) == CleanYoutubeUrl(url)
  {
    var once := CleanYoutubeUrl(url);
    CleanedShape(url);
    CleanedShape(once);
    var ps := Params(url);
    var vs := ValuesOf(ps, "v");
    var ls := ValuesOf(ps, "list");
    var twice := CleanYoutubeUrl(once);
    assert SplitUrl(twice).base == SplitUrl(url).base;
    var ps2 := Params(once);
    if vs != [] {
      PairsValues("v", vs, "v");
      PairsValues("v", vs, "list");
    } else {
      PairsValues("list", ls, "v");
      PairsValues("list", ls, "list");
    }
    assert EssentialQuery(ps2) == EssentialQuery(ps);
    assert SplitUrl(twice) == SplitUrl(once);
    ResplitCleaned(SplitUrl(url).base, EssentialQuery(ps));
    ResplitCleaned(SplitUrl(url).base, EssentialQuery(ps2));
  }

  lemma {:induction false} PairsValues(name: string, values: seq<string>, other: string)
    ensures ValuesOf(Pairs(name, values), other) == (if other == name then values else [])
  {
    if values != [] {
      PairsValues(name, values[1..], other);
    }
  }

  // ---- is_youtube_url -------------------------------------------------------

  /** `.+$` with Python's `re`: one or more characters other than a newline, then
      the end of the string or a single final newline. */
  predicate RestMatches(t: string) {
    (|t| >= 1 && '\n' !in t)
    || (|t| >= 2 && t[|t| - 1] == '\n' && '\n' !in t[..|t| - 1])
  }

  function StripScheme(u: string): string {
    if StartsWith(u, "https://") then u[8..]
    else if StartsWith(u, "http://") then u[7..]
    else u
  }

  function StripWww(u: string): string {
    if StartsWith(u, "www.") then u[4..] else u
  }

  /** The matcher for `^(https?://)?(www\.)?(youtube\.com|youtu\.be|music\.youtube\.com)/.+$`.
      Each optional group and the host alternatives can match in at most one way,
      so the groups are tried in order without backtracking. */
  predicate IsYoutubeUrl(u: string) {
    HostPathMatches(StripWww(StripScheme(u)))
  }

  /** `(youtube\.com|youtu\.be|music\.youtube\.com)/.+$` on what follows the
      optional scheme and `www.`. */
  predicate HostPathMatches(b: string) {
    (StartsWith(b, "youtube.com/") && RestMatches(b[12..]))
    || (StartsWith(b, "youtu.be/") && RestMatches(b[9..]))
    || (StartsWith(b, "music.youtube.com/") && RestMatches(b[18..]))
  }

  /** The alternatives of each group of the pattern. */
  predicate IsScheme(s: string) { s == "" || s == "http://" || s == "https://" }
  predicate IsWww(w: string) { w == "" || w == "www." }
  predicate IsHost(h: string) { h == "youtube.com" || h == "youtu.be" || h == "music.youtube.com" }

  /** The language of the pattern, read off the pattern group by group. */
  ghost predicate InPatternLanguage(u: string) {
    exists s, w, h, t ::
      IsScheme(s) && IsWww(w) && IsHost(h) && u == s + w + h + "/" + t && RestMatches(t)
  }

  lemma IsYoutubeUrlMatchesPattern(u: string)
    ensures IsYoutubeUrl(u) <==> InPatternLanguage(u)
  {
    if IsYoutubeUrl(u) {
      var s, w, h, t := PatternOfMatch(u);
    }
    if InPatternLanguage(u) {
      var s, w, h, t :|
        IsScheme(s) && IsWww(w) && IsHost(h) && u == s + w + h + "/" + t && RestMatches(t);
      PatternMatched(s, w, h, t);
    }
  }

  /** Reads the groups of the pattern off an accepted URL. */
  lemma PatternOfMatch(u: string) returns (s: string, w: string, h: string, t: string)
    requires IsYoutubeUrl(u)
    ensures IsScheme(s) && IsWww(w) && IsHost(h) && RestMatches(t)
    ensures u == s + w + h + "/" + t
  {
    s := SchemeOf(u);
    var a := StripScheme(u);
    w := WwwOf(a);
    var b := StripWww(a);
    h, t := HostOf(b);
    Regroup(s, w, h, t);
  }

  lemma SchemeOf(u: string) returns (s: string)
    ensures IsScheme(s) && u == s + StripScheme(u)
  {
    if StartsWith(u, "https://") {
      s := "https://";
      assert u == u[..8] + u[8..];
    } else if StartsWith(u, "http://") {
      s := "http://";
      assert u == u[..7] + u[7..];
    } else {
      s := "";
    }
  }

  lemma WwwOf(a: string) returns (w: string)
    ensures IsWww(w) && a == w + StripWww(a)
  {
    if StartsWith(a, "www.") {
      w := "www.";
      assert a == a[..4] + a[4..];
    } else {
      w := "";
    }
  }

  lemma HostOf(b: string) returns (h: string, t: string)
    requires HostPathMatches(b)
    ensures IsHost(h) && RestMatches(t) && b == h + "/" + t
  {
    var k;
    if StartsWith(b, "youtube.com/") && RestMatches(b[12..]) {
      h, k := "youtube.com", 12;
    } else if StartsWith(b, "youtu.be/") && RestMatches(b[9..]) {
      h, k := "youtu.be", 9;
    } else {
      h, k := "music.youtube.com", 18;
    }
    t := b[k..];
    assert b[..k] == h + "/";
    assert b == b[..k] + b[k..];
  }

  lemma NotStartsWith(s: string, p: string, i: nat)
    requires i < |p| && (i >= |s| || s[i] != p[i])
    ensures !StartsWith(s, p)
  {
  }

  lemma SchemeStripped(s: string, rest: string)
    requires IsScheme(s)
    requires rest != [] && (rest[0] == 'w' || rest[0] == 'y' || rest[0] == 'm')
    ensures StripScheme(s + rest) == rest
  {
    var u := s + rest;
    if s == "https://" {
      assert u[..8] == s;
    } else if s == "http://" {
      NotStartsWith(u, "https://", 4);
      assert u[..7] == s;
    } else {
      assert u == rest;
      NotStartsWith(u, "https://", 0);
      NotStartsWith(u, "http://", 0);
    }
  }

  lemma WwwStripped(w: string, b: string)
    requires IsWww(w)
    requires b != [] && (b[0] == 'y' || b[0] == 'm')
    ensures StripWww(w + b) == b
  {
    if w == "www." {
      assert (w + b)[..4] == w;
    } else {
      assert w + b == b;
      NotStartsWith(b, "www.", 0);
    }
  }

  lemma PatternMatched(s: string, w: string, h: string, t: string)
    requires IsScheme(s) && IsWww(w) && IsHost(h) && RestMatches(t)
    ensures IsYoutubeUrl(s + w + h + "/" + t)
  {
    var b := h + "/" + t;
    assert b[0] == h[0];
    Stripped(s, w, b);
    Regroup(s, w, h, t);
    HostAccepted(h, t);
  }

  /** Regrouping string concatenation, kept as lemmas so that the callers' proofs
      see only the one equation they need. */
  lemma Assoc(a: string, b: string, c: string)
    ensures a + b + c == a + (b + c)
  {
  }

  lemma Regroup(s: string, w: string, h: string, t: string)
    ensures s + w + h + "/" + t == s + (w + (h + "/" + t))
  {
  }

  lemma HostAccepted(h: string, t: string)
    requires IsHost(h) && RestMatches(t)
    ensures HostPathMatches(h + "/" + t)
  {
    var b := h + "/" + t;
    if h == "youtube.com" {
      assert b[..12] == "youtube.com/";
      assert b[12..] == t;
    } else if h == "youtu.be" {
      NotStartsWith(b, "youtube.com/", 5);
      assert b[..9] == "youtu.be/";
      assert b[9..] == t;
    } else {
      NotStartsWith(b, "youtube.com/", 0);
      NotStartsWith(b, "youtu.be/", 0);
      assert b[..18] == "music.youtube.com/";
      assert b[18..] == t;
    }
  }

  /** A bare host, with or without the slash, is not accepted: the pattern needs
      at least one character after the slash. */
  lemma BareHostRejected(s: string, w: string, h: string)
    requires IsScheme(s) && IsWww(w) && IsHost(h)
    ensures !IsYoutubeUrl(s + w + h)
    ensures !IsYoutubeUrl(s + w + h + "/")
  {
    HostRejected(h);
    Stripped(s, w, h);
    Assoc(s, w, h);
    assert h + "/" != [] && (h + "/")[0] == h[0];
    Stripped(s, w, h + "/");
    Assoc(s, w, h + "/");
    Assoc(s + w, h, "/");
  }

  /** The optional scheme and `www.` are stripped off anything that starts like a host. */
  lemma Stripped(s: string, w: string, b: string)
    requires IsScheme(s) && IsWww(w)
    requires b != [] && (b[0] == 'y' || b[0] == 'm')
    ensures StripWww(StripScheme(s + (w + b))) == b
  {
    WwwStripped(w, b);
    assert (w + b)[0] == 'w' || (w + b)[0] == b[0];
    SchemeStripped(s, w + b);
  }

  lemma HostRejected(h: string)
    requires IsHost(h)
    ensures !HostPathMatches(h) && !HostPathMatches(h + "/")
  {
    var b := h + "/";
    if h == "youtube.com" {
      NotStartsWith(h, "youtube.com/", 11);
      NotStartsWith(h, "youtu.be/", 5);
      NotStartsWith(h, "music.youtube.com/", 0);
      NotStartsWith(b, "youtu.be/", 5);
      NotStartsWith(b, "music.youtube.com/", 0);
      assert b[12..] == [];
    } else if h == "youtu.be" {
      NotStartsWith(h, "youtube.com/", 5);
      NotStartsWith(h, "youtu.be/", 8);
      NotStartsWith(h, "music.youtube.com/", 0);
      NotStartsWith(b, "youtube.com/", 5);
      NotStartsWith(b, "music.youtube.com/", 0);
      assert b[9..] == [];
    } else {
      NotStartsWith(h, "youtube.com/", 0);
      NotStartsWith(h, "youtu.be/", 0);
      NotStartsWith(h, "music.youtube.com/", 17);
      NotStartsWith(b, "youtube.com/", 0);
      NotStartsWith(b, "youtu.be/", 0);
      assert b[18..] == [];
    }
  }
}
