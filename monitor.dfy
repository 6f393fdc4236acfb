/** Change detection of bot/monitor.py: the YouTube and Twitch checks reduced to
    decisions over the fetched remote state and the markers stored on a monitored
    channel, the parsing of channel references, and the Twitch client field.

    The YouTube Data API, the Twitch API and the channel lookups are inputs: a fetch
    that raises is `None`, and every exception the checks catch turns into "no update". */
module Monitor {
  import opened Wrappers
  import opened Text
  import opened Models

  datatype UpdateKind = Video | Live

  /** The update record a check returns; `markerId` is its `video_id` (YouTube) or
      `stream_id` (Twitch), the value the scheduler stores as the channel's marker. */
  datatype Update = Update(kind: UpdateKind, title: string, url: string, thumbnail: string, markerId: string)

  // ---- YouTube ----------------------------------------------------------------

  /** One item of a search response: its video id, title and thumbnail URLs by size. */
  datatype VideoItem = VideoItem(videoId: string, title: string, thumbnails: map<string, string>)

  /** Thumbnail sizes from best to worst. */
  const ThumbnailOrder: seq<string> := ["maxres", "high", "medium", "default"]

  /** The best thumbnail present; `None` where the source's `thumbnails['default']`
      raises because none of the four sizes is there. */
  function ChooseThumbnail(thumbnails: map<string, string>): (r: Option<string>)
    ensures r.Some? <==> exists i :: 0 <= i < |ThumbnailOrder| && ThumbnailOrder[i] in thumbnails
    ensures r.Some? ==> exists i ::
      && 0 <= i < |ThumbnailOrder| && ThumbnailOrder[i] in thumbnails
      && r.value == thumbnails[ThumbnailOrder[i]]
      && forall j :: 0 <= j < i ==> ThumbnailOrder[j] !in thumbnails
  {
    if "maxres" in thumbnails then
      assert ThumbnailOrder[0] == "maxres";
      Some(thumbnails["maxres"])
    else if "high" in thumbnails then
      assert ThumbnailOrder[1] == "high";
      Some(thumbnails["high"])
    else if "medium" in thumbnails then
      assert ThumbnailOrder[2] == "medium";
      Some(thumbnails["medium"])
    else if "default" in thumbnails then
      assert ThumbnailOrder[3] == "default";
      Some(thumbnails["default"])
    else
      None
  }

  function WatchUrl(videoId: string): string {
    "https://www.youtube.com/watch?v=" + videoId
  }

  /** `check_youtube_updates`. `youtubeClient` says whether an API client was built
      (without one the call raises); `response` is the items of the search for the
      channel's latest video, `None` when the request raised. */
  function CheckYoutubeUpdates(youtubeClient: bool, channel: MonitoredChannel, response: Option<seq<VideoItem>>): (r: Option<Update>)
    ensures (!youtubeClient || response.None? || response.value == []) ==> r.None?
    ensures r.Some? <==>
      && youtubeClient && response.Some? && response.value != []
      && channel.lastVideoId != Some(response.value[0].videoId)
      && ChooseThumbnail(response.value[0].thumbnails).Some?
    ensures r.Some? ==>
      var video := response.value[0];
      r.value == Update(Video, video.title, WatchUrl(video.videoId),
        ChooseThumbnail(video.thumbnails).value, video.videoId)
  {
    if !youtubeClient || response.None? then None
    else if response.value == [] then None
    else
      var video := response.value[0];
      if Some(video.videoId) != channel.lastVideoId then
        match ChooseThumbnail(video.thumbnails)
        case None => None
        case Some(thumbnail) => Some(Update(Video, video.title, WatchUrl(video.videoId), thumbnail, video.videoId))
      else None
  }

  /** Once the announced video's id is stored as the marker, the same response
      announces nothing more. */
  lemma YoutubeQuietAfterMarker(youtubeClient: bool, channel: MonitoredChannel, response: Option<seq<VideoItem>>)
    requires CheckYoutubeUpdates(youtubeClient, channel, response).Some?
    ensures var u := CheckYoutubeUpdates(youtubeClient, channel, response).value;
      CheckYoutubeUpdates(youtubeClient, channel.(lastVideoId := Some(u.markerId)), response).None?
  {
  }

  // ---- Twitch -----------------------------------------------------------------

  /** One live stream as the Twitch API lists it. A field is `None` when the record
      lacks that key: reading it raises `KeyError`. */
  datatype Stream = Stream(id: Option<string>, title: Option<string>, thumbnailUrl: Option<string>)

  /** The record has every key an announcement reads. */
  predicate Complete(stream: Stream) {
    stream.id.Some? && stream.title.Some? && stream.thumbnailUrl.Some?
  }

  /** The thumbnail template with its size placeholders filled in. */
  function TwitchThumbnail(template: string): string {
    ReplaceAll(ReplaceAll(template, "{width}", "320"), "{height}", "180")
  }

  /** A template with one `{width}` and then one `{height}` placeholder, and no other
      `{`, gets 320 and 180 in their places and is otherwise unchanged. */
  lemma TwitchThumbnailFilled(a: string, b: string, c: string)
    requires '{' !in a && '{' !in b && '{' !in c
    ensures TwitchThumbnail(a + "{width}" + b + "{height}" + c) == a + "320" + b + "180" + c
  {
    var rest := b + "{height}" + c;
    var widthDone := a + "320" + b;
    assert a + "{width}" + b + "{height}" + c == a + "{width}" + rest;
    ReplaceOne(a, "{width}", rest, "320");
    OtherPlaceholderKept(b, "{height}", c, "{width}", "320");
    assert ReplaceAll(a + "{width}" + rest, "{width}", "320") == widthDone + "{height}" + c;
    ReplaceOne(widthDone, "{height}", c, "180");
    ReplaceNone(c, "{height}", "180");
  }

  /** A placeholder other than the one being replaced survives, when the two differ
      at their second character. */
  lemma OtherPlaceholderKept(b: string, other: string, c: string, pat: string, rep: string)
    requires |pat| > 1 && |other| > 1 && other[1] != pat[1]
    requires pat[0] !in b && pat[0] !in other[1..] && pat[0] !in c
    ensures ReplaceAll(b + other + c, pat, rep) == b + other + c
  {
    ReplaceSkips(b, other + c, pat, rep);
    assert b + other + c == b + (other + c);
    var t := other + c;
    assert !StartsWith(t, pat) by { assert t[1] == other[1]; }
    assert t[1..] == other[1..] + c;
    ReplaceNone(t[1..], pat, rep);
    assert [t[0]] + t[1..] == t;
  }

  /** `check_twitch_updates` once the streams are fetched: an update exactly when the
      channel is live and either was not live before or shows a stream other than the
      stored one. Going off air announces nothing. A first record without `id`, or an
      announced one without `title` or `thumbnail_url`, raises `KeyError`, which the
      outer handler turns into no update. */
  function DecideTwitch(channel: MonitoredChannel, streams: seq<Stream>): (r: Option<Update>)
    ensures streams == [] ==> r.None?
    ensures streams != [] && streams[0].id.None? ==> r.None?
    ensures r.Some? <==>
      streams != [] && Complete(streams[0])
      && (!channel.isLive || channel.lastStreamId != streams[0].id)
    ensures r.Some? ==>
      r.value == Update(Live, streams[0].title.value, "https://twitch.tv/" + channel.channelName,
        TwitchThumbnail(streams[0].thumbnailUrl.value), streams[0].id.value)
  {
    var isLive := streams != [];
    if isLive && streams[0].id.None? then None
    else
      var streamId := if isLive then streams[0].id else None;
      if isLive != channel.isLive || (isLive && streamId != channel.lastStreamId) then
        if isLive then
          var stream := streams[0];
          match (stream.title, stream.thumbnailUrl)
          case (Some(title), Some(thumbnail)) =>
            Some(Update(Live, title, "https://twitch.tv/" + channel.channelName,
              TwitchThumbnail(thumbnail), streamId.value))
          case _ => None
        else None
      else None
  }

  /** Once the stream's id is stored and the channel marked live (a non-empty id is
      truthy), the same streams announce nothing more. */
  lemma TwitchQuietAfterMarker(channel: MonitoredChannel, streams: seq<Stream>)
    requires DecideTwitch(channel, streams).Some?
    requires DecideTwitch(channel, streams).value.markerId != ""
    ensures var id := DecideTwitch(channel, streams).value.markerId;
      DecideTwitch(channel.(lastStreamId := Some(id), isLive := id != ""), streams).None?
  {
  }

  // ---- channel references -----------------------------------------------------

  /** What `extract_youtube_channel_id` makes of its input before any lookup. */
  datatype ChannelRef =
    | DirectId(id: string)           // already a channel id, or a /channel/ URL
    | UserLookup(username: string)   // resolved with the forUsername lookup
    | HandleLookup(handle: string)   // resolved with the forHandle lookup

  /** `input.split(sep)[-1].split('/')[0]`. */
  function SegmentAfter(input: string, sep: string): string
    requires |sep| > 0
  {
    FirstPiece(LastPiece(input, sep), '/')
  }

  /** Already a channel id: 24 characters starting with `UC`. */
  predicate IsChannelId(input: string) {
    StartsWith(input, "UC") && |input| == 24
  }

  /** A YouTube URL with one of the three path kinds the parser knows. */
  predicate YoutubePathKind(input: string) {
    Contains(input, "youtube.com/")
      && (Contains(input, "/channel/") || Contains(input, "/user/") || Contains(input, "/@"))
  }

  /** The string dispatch of `extract_youtube_channel_id`: a 24-character id starting
      with `UC`, then YouTube URLs by path kind, then a bare `@handle`, and anything
      else is a username. A YouTube URL with none of the three path kinds falls
      through to the later rules. */
  function ClassifyChannelInput(input: string): (c: ChannelRef)
    ensures IsChannelId(input) ==> c == DirectId(input)
    ensures c.DirectId? && c.id != input ==>
      Contains(input, "youtube.com/") && Contains(input, "/channel/")
      && c.id == SegmentAfter(input, "/channel/")
    ensures !IsChannelId(input) && Contains(input, "youtube.com/") && Contains(input, "/channel/") ==>
      c == DirectId(SegmentAfter(input, "/channel/"))
    ensures (!IsChannelId(input) && Contains(input, "youtube.com/") && !Contains(input, "/channel/")
             && Contains(input, "/user/")) ==>
      c == UserLookup(SegmentAfter(input, "/user/"))
    ensures (!IsChannelId(input) && Contains(input, "youtube.com/") && !Contains(input, "/channel/")
             && !Contains(input, "/user/") && Contains(input, "/@")) ==>
      c == HandleLookup(SegmentAfter(input, "/@"))
    ensures !IsChannelId(input) && !YoutubePathKind(input) && StartsWith(input, "@") ==>
      c == HandleLookup(FirstPiece(LStrip(input, '@'), '/'))
    ensures !IsChannelId(input) && !YoutubePathKind(input) && !StartsWith(input, "@") ==>
      c == UserLookup(LStrip(input, '@'))
  {
    if IsChannelId(input) then DirectId(input)
    else if Contains(input, "youtube.com/") && Contains(input, "/channel/") then
      DirectId(SegmentAfter(input, "/channel/"))
    else if Contains(input, "youtube.com/") && Contains(input, "/user/") then
      UserLookup(SegmentAfter(input, "/user/"))
    else if Contains(input, "youtube.com/") && Contains(input, "/@") then
      HandleLookup(SegmentAfter(input, "/@"))
    else if StartsWith(input, "@") then
      HandleLookup(FirstPiece(LStrip(input, '@'), '/'))
    else
      UserLookup(LStrip(input, '@'))
  }

  /** Where the segment after `sep` starts: right after the last occurrence of `sep`
      that the left-to-right scan finds, with no occurrence from there on. */
  lemma SegmentStart(input: string, sep: string)
    requires |sep| > 0 && Contains(input, sep)
    ensures var k := LastPieceStart(input, sep, 0);
      |sep| <= k && OccursAt(input, sep, k - |sep|)
    ensures var k := LastPieceStart(input, sep, 0);
      forall j :: k <= j ==> !OccursAt(input, sep, j)
  {
    var k := LastPieceStart(input, sep, 0);
    assert Find(input, sep, k) == None;
    assert k != 0;
    FindFirst(input, sep, k);
  }

  /** The segment after `sep` is the text from where it starts up to the next `/`. */
  lemma SegmentText(input: string, sep: string)
    requires |sep| > 0
    ensures var k := LastPieceStart(input, sep, 0);
      var id := SegmentAfter(input, sep);
      && k + |id| <= |input| && id == input[k..k + |id|]
      && '/' !in id && (k + |id| == |input| || input[k + |id|] == '/')
  {
    var k := LastPieceStart(input, sep, 0);
    var rest := input[k..];
    var id := FirstPiece(rest, '/');
    assert SegmentAfter(input, sep) == id;
    assert id == input[k..k + |id|];
    if k + |id| < |input| {
      assert input[k + |id|] == rest[|id|];
    }
  }

  /** The segment taken from a `/channel/` URL is the text right after the last
      occurrence of `/channel/` (scanning from the left), up to the next `/`. */
  lemma ChannelSegment(input: string)
    requires Contains(input, "/channel/")
    ensures var k := LastPieceStart(input, "/channel/", 0);
      9 <= k && OccursAt(input, "/channel/", k - 9)
    ensures var k := LastPieceStart(input, "/channel/", 0);
      forall j :: k <= j ==> !OccursAt(input, "/channel/", j)
    ensures var k := LastPieceStart(input, "/channel/", 0);
      var id := SegmentAfter(input, "/channel/");
      && k + |id| <= |input| && id == input[k..k + |id|]
      && '/' !in id && (k + |id| == |input| || input[k + |id|] == '/')
  {
    SegmentStart(input, "/channel/");
    SegmentText(input, "/channel/");
  }

  /** `extract_youtube_channel_id`: the lookups are the oracles `byUsername` and
      `byHandle`, which give `None` when the API finds nothing or fails. */
  function ExtractYoutubeChannelId(input: string, byUsername: string -> Option<string>, byHandle: string -> Option<string>): (r: Option<string>)
    ensures ClassifyChannelInput(input).DirectId? ==> r == Some(ClassifyChannelInput(input).id)
    ensures ClassifyChannelInput(input).UserLookup? ==> r == byUsername(ClassifyChannelInput(input).username)
    ensures ClassifyChannelInput(input).HandleLookup? ==> r == byHandle(ClassifyChannelInput(input).handle)
  {
    match ClassifyChannelInput(input)
    case DirectId(id) => Some(id)
    case UserLookup(name) => byUsername(name)
    case HandleLookup(handle) => byHandle(handle)
  }

  /** Ids and `/channel/` URLs are answered without any lookup: the result does not
      depend on what the lookups would return. */
  lemma DirectIdsNeedNoLookup(input: string,
    u1: string -> Option<string>, h1: string -> Option<string>,
    u2: string -> Option<string>, h2: string -> Option<string>)
    requires IsChannelId(input)
      || (Contains(input, "youtube.com/") && Contains(input, "/channel/"))
    ensures ExtractYoutubeChannelId(input, u1, h1) == ExtractYoutubeChannelId(input, u2, h2)
  {
  }

  // ---- the Twitch client field ------------------------------------------------

  /** A Twitch API client and whether it has authenticated. */
  datatype TwitchClient = TwitchClient(authenticated: bool)

  /** The monitor's API clients. `youtubeClient` is fixed at construction (a client is
      built iff an API key is configured); `twitch` is set, reset and rebuilt as
      authentication succeeds or fails. Authentication outcomes are inputs. */
  class ChannelMonitor {
    const youtubeClient: bool
    const credentialsConfigured: bool
    var twitch: Option<TwitchClient>

    /** `__init__`: a Twitch client is created, not yet authenticated, iff both Twitch
        credentials are configured. */
    constructor(youtubeApiKey: bool, twitchCredentials: bool)
      ensures youtubeClient == youtubeApiKey && credentialsConfigured == twitchCredentials
      ensures twitch == (if twitchCredentials then Some(TwitchClient(false)) else None)
    {
      youtubeClient := youtubeApiKey;
      credentialsConfigured := twitchCredentials;
      twitch := if twitchCredentials then Some(TwitchClient(false)) else None;
    }

    /** `initialize`: authenticate the existing client, dropping it on failure. */
    method Initialize(authenticates: bool)
      modifies this
      ensures old(twitch).None? ==> twitch == None
      ensures old(twitch).Some? ==> twitch == (if authenticates then Some(TwitchClient(true)) else None)
    {
      if twitch.Some? {
        if authenticates {
          twitch := Some(TwitchClient(true));
        } else {
          twitch := None;
        }
      }
    }

    /** `ensure_twitch_authenticated`: without credentials it reports false and changes
        nothing; an existing client is trusted as it is; a missing one is rebuilt and
        authenticated, and left missing when that fails. */
    method EnsureTwitchAuthenticated(authenticates: bool) returns (ok: bool)
      modifies this
      ensures !credentialsConfigured ==> !ok && twitch == old(twitch)
      ensures credentialsConfigured && old(twitch).Some? ==> ok && twitch == old(twitch)
      ensures credentialsConfigured && old(twitch).None? ==>
        ok == authenticates && twitch == (if authenticates then Some(TwitchClient(true)) else None)
      ensures ok ==> twitch.Some?
    {
      if !credentialsConfigured {
        return false;
      }
      if twitch.None? {
        twitch := Some(TwitchClient(false));
        if authenticates {
          twitch := Some(TwitchClient(true));
          return true;
        } else {
          twitch := None;
          return false;
        }
      }
      return true;
    }

    /** `check_twitch_updates`. `firstFetch` and `retryFetch` are the results of the two
        `get_streams` calls (`None` when a call raises). After a failed first call the
        source asks for re-authentication, but the client is then always present, so
        the retry runs with the same client. */
    method CheckTwitchUpdates(channel: MonitoredChannel, authenticates: bool,
      firstFetch: Option<seq<Stream>>, retryFetch: Option<seq<Stream>>) returns (r: Option<Update>)
      modifies this
      ensures !credentialsConfigured || (old(twitch).None? && !authenticates) ==> r.None?
      ensures credentialsConfigured && (old(twitch).Some? || authenticates) ==>
        r == (match firstFetch
              case Some(streams) => DecideTwitch(channel, streams)
              case None => (match retryFetch
                            case Some(streams) => DecideTwitch(channel, streams)
                            case None => None))
      ensures twitch == (if credentialsConfigured && old(twitch).None?
                         then (if authenticates then Some(TwitchClient(true)) else None)
                         else old(twitch))
    {
      var ok := EnsureTwitchAuthenticated(authenticates);
      if !ok {
        return None;
      }
      match firstFetch {
        case Some(streams) =>
          r := DecideTwitch(channel, streams);
        case None =>
          var again := EnsureTwitchAuthenticated(authenticates);
          if again {
            match retryFetch {
              case Some(streams) => r := DecideTwitch(channel, streams);
              case None => r := None;
            }
          } else {
            r := None;
          }
      }
    }
  }
}
