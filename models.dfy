/** The stored records of db/models.py and their dictionary forms.

    A MongoDB document is a `Doc`: a map from field names to `Value`s. Datetimes are
    integer timestamps. `datetime.now(UTC)` is the parameter `now`. A `from_dict` that
    would raise (a `data[key]` on a missing key, iterating over `None`) yields `Err`. */
module Models {
  import opened Wrappers

  datatype Value =
    | VNull
    | VStr(s: string)
    | VInt(i: int)
    | VBool(b: bool)
    | VTime(t: int)
    | VList(items: seq<Value>)
    | VDoc(fields: map<string, Value>)

  type Doc = map<string, Value>

  // ---- reading fields -------------------------------------------------------

  /** `data[key]` for a string field: a missing key raises. */
  function RequiredStr(d: Doc, key: string): (r: Result<string>)
    ensures r.Ok? <==> key in d && d[key].VStr?
    ensures r.Ok? ==> d[key] == VStr(r.value)
  {
    if key in d && d[key].VStr? then Ok(d[key].s) else Err("missing or mistyped " + key)
  }

  function RequiredTime(d: Doc, key: string): (r: Result<int>)
    ensures r.Ok? <==> key in d && d[key].VTime?
    ensures r.Ok? ==> d[key] == VTime(r.value)
  {
    if key in d && d[key].VTime? then Ok(d[key].t) else Err("missing or mistyped " + key)
  }

  function RequiredInt(d: Doc, key: string): (r: Result<int>)
    ensures r.Ok? <==> key in d && d[key].VInt?
    ensures r.Ok? ==> d[key] == VInt(r.value)
  {
    if key in d && d[key].VInt? then Ok(d[key].i) else Err("missing or mistyped " + key)
  }

  /** `data.get(key)` for an optional string: absent and `None` both give `None`. */
  function OptionalStr(d: Doc, key: string): (r: Result<Option<string>>)
    ensures (key !in d || d[key] == VNull) ==> r == Ok(None)
    ensures r.Ok? && r.value.Some? ==> key in d && d[key] == VStr(r.value.value)
  {
    if key !in d || d[key] == VNull then Ok(None)
    else if d[key].VStr? then Ok(Some(d[key].s))
    else Err("mistyped " + key)
  }

  function OptionalTime(d: Doc, key: string): (r: Result<Option<int>>)
    ensures (key !in d || d[key] == VNull) ==> r == Ok(None)
    ensures r.Ok? && r.value.Some? ==> key in d && d[key] == VTime(r.value.value)
  {
    if key !in d || d[key] == VNull then Ok(None)
    else if d[key].VTime? then Ok(Some(d[key].t))
    else Err("mistyped " + key)
  }

  function StrValue(o: Option<string>): Value {
    match o
    case None => VNull
    case Some(s) => VStr(s)
  }

  function TimeValue(o: Option<int>): Value {
    match o
    case None => VNull
    case Some(t) => VTime(t)
  }

  // ---- Activity -------------------------------------------------------------

  /** A game or application known to the system. */
  datatype Activity = Activity(name: string, createdAt: int)

  function ActivityToDict(a: Activity): Doc {
    map["name" := VStr(a.name), "created_at" := VTime(a.createdAt)]
  }

  /** `Activity.from_dict`: `name` is required, `created_at` defaults to now. */
  function ActivityFromDict(d: Doc, now: int): (r: Result<Activity>)
    ensures "name" !in d ==> r.Err?
    ensures r.Ok? ==> d["name"] == VStr(r.value.name)
    ensures r.Ok? && "created_at" !in d ==> r.value.createdAt == now
    ensures r.Ok? && "created_at" in d ==> d["created_at"] == VTime(r.value.createdAt)
  {
    var name :- RequiredStr(d, "name");
    if "created_at" !in d then Ok(Activity(name, now))
    else if d["created_at"].VTime? then Ok(Activity(name, d["created_at"].t))
    else Err("mistyped created_at")
  }

  lemma ActivityRoundTrip(a: Activity, now: int)
    ensures ActivityFromDict(ActivityToDict(a), now) == Ok(a)
  {
  }

  // ---- ActivityHistory ------------------------------------------------------

  /** One session of a user in an activity; an open session has no end time. */
  datatype ActivityHistory =
    ActivityHistory(userId: string, activityName: string, startTime: int, endTime: Option<int>)

  /** `duration_seconds`: a `datetime` is always truthy, so the only open case is a
      missing end time. */
  function DurationSeconds(h: ActivityHistory): (r: Option<int>)
    ensures r.None? <==> h.endTime.None?
    ensures r.Some? ==> h.startTime + r.value == h.endTime.value
  {
    match h.endTime
    case None => None
    case Some(e) => Some(e - h.startTime)
  }

  function HistoryToDict(h: ActivityHistory): Doc {
    map[
      "user_id" := VStr(h.userId),
      "activity_name" := VStr(h.activityName),
      "start_time" := VTime(h.startTime),
      "end_time" := TimeValue(h.endTime)
    ]
  }

  function HistoryFromDict(d: Doc): (r: Result<ActivityHistory>)
    ensures "user_id" !in d || "activity_name" !in d || "start_time" !in d ==> r.Err?
    ensures r.Ok? && ("end_time" !in d || d["end_time"] == VNull) ==> r.value.endTime.None?
  {
    var userId :- RequiredStr(d, "user_id");
    var activityName :- RequiredStr(d, "activity_name");
    var startTime :- RequiredTime(d, "start_time");
    var endTime :- OptionalTime(d, "end_time");
    Ok(ActivityHistory(userId, activityName, startTime, endTime))
  }

  lemma HistoryRoundTrip(h: ActivityHistory)
    ensures HistoryFromDict(HistoryToDict(h)) == Ok(h)
  {
  }

  /** Conversely, a document that reads back gives the same fields when written again,
      except that a missing `end_time` is written as `None`. */
  lemma HistoryFromDictToDict(d: Doc)
    requires HistoryFromDict(d).Ok?
    ensures forall k :: k in d && k in HistoryToDict(HistoryFromDict(d).value) && k != "end_time" ==>
        HistoryToDict(HistoryFromDict(d).value)[k] == d[k]
    ensures "end_time" in d && d["end_time"] != VNull
      ==> HistoryToDict(HistoryFromDict(d).value)["end_time"] == d["end_time"]
  {
  }

  // ---- MonitoredChannel -----------------------------------------------------

  /** A YouTube or Twitch channel; `lastVideoId` and `lastStreamId` are the markers of
      what was last announced. */
  datatype MonitoredChannel = MonitoredChannel(
    platform: string,
    channelId: string,
    channelName: string,
    addedBy: Option<string>,
    lastVideoId: Option<string>,
    lastStreamId: Option<string>,
    isLive: bool,
    addedAt: int,
    subscribers: seq<string>)

  /** The dataclass constructor with `__post_init__`: missing subscribers become the
      empty list. The default `added_at` is evaluated once, when the class is defined,
      so it is the parameter `classDefinedAt`, not the time of the call. */
  function NewMonitoredChannel(
    platform: string, channelId: string, channelName: string,
    addedBy: Option<string>, lastVideoId: Option<string>, lastStreamId: Option<string>,
    isLive: bool, addedAt: Option<int>, subscribers: Option<seq<string>>,
    classDefinedAt: int): (c: MonitoredChannel)
    ensures c.subscribers == (if subscribers.None? then [] else subscribers.value)
    ensures c.addedAt == (if addedAt.None? then classDefinedAt else addedAt.value)
    ensures c.platform == platform && c.channelId == channelId && c.channelName == channelName
    ensures c.addedBy == addedBy && c.lastVideoId == lastVideoId
      && c.lastStreamId == lastStreamId && c.isLive == isLive
  {
    MonitoredChannel(platform, channelId, channelName, addedBy, lastVideoId, lastStreamId,
      isLive, addedAt.GetOr(classDefinedAt), subscribers.GetOr([]))
  }

  function StrList(xs: seq<string>): seq<Value> {
    seq(|xs|, i requires 0 <= i < |xs| => VStr(xs[i]))
  }

  function StrsFromValues(vs: seq<Value>): (r: Result<seq<string>>)
    ensures r.Ok? ==> StrList(r.value) == vs
  {
    if vs == [] then Ok([])
    else if !vs[0].VStr? then Err("mistyped subscriber")
    else
      var rest :- StrsFromValues(vs[1..]);
      assert StrList([vs[0].s] + rest) == [vs[0]] + StrList(rest);
      Ok([vs[0].s] + rest)
  }

  lemma {:induction false} StrsRoundTrip(xs: seq<string>)
    ensures StrsFromValues(StrList(xs)) == Ok(xs)
  {
    if xs != [] {
      assert StrList(xs)[1..] == StrList(xs[1..]);
      StrsRoundTrip(xs[1..]);
      assert [xs[0]] + xs[1..] == xs;
    }
  }

  /** `to_dict`: `subscribers or []` always writes a list. */
  function ChannelToDict(c: MonitoredChannel): (d: Doc)
    ensures "subscribers" in d && d["subscribers"].VList?
  {
    map[
      "platform" := VStr(c.platform),
      "channel_id" := VStr(c.channelId),
      "channel_name" := VStr(c.channelName),
      "added_by" := StrValue(c.addedBy),
      "last_video_id" := StrValue(c.lastVideoId),
      "last_stream_id" := StrValue(c.lastStreamId),
      "is_live" := VBool(c.isLive),
      "added_at" := VTime(c.addedAt),
      "subscribers" := VList(StrList(c.subscribers))
    ]
  }

  /** `from_dict`: `is_live` defaults to false, `added_at` to now and `subscribers` to
      the empty list; a stored `None` subscriber list is normalised by the constructor. */
  function ChannelFromDict(d: Doc, now: int): (r: Result<MonitoredChannel>)
    ensures r.Ok? && "is_live" !in d ==> !r.value.isLive
    ensures r.Ok? && "added_at" !in d ==> r.value.addedAt == now
    ensures r.Ok? && ("subscribers" !in d || d["subscribers"] == VNull) ==> r.value.subscribers == []
  {
    var platform :- RequiredStr(d, "platform");
    var channelId :- RequiredStr(d, "channel_id");
    var channelName :- RequiredStr(d, "channel_name");
    var addedBy :- OptionalStr(d, "added_by");
    var lastVideoId :- OptionalStr(d, "last_video_id");
    var lastStreamId :- OptionalStr(d, "last_stream_id");
    var isLive :-
      if "is_live" !in d then Ok(false)
      else if d["is_live"].VBool? then Ok(d["is_live"].b)
      else Err("mistyped is_live");
    var addedAt :-
      if "added_at" !in d then Ok(now)
      else if d["added_at"].VTime? then Ok(d["added_at"].t)
      else Err("mistyped added_at");
    var subscribers :-
      if "subscribers" !in d || d["subscribers"] == VNull then Ok(None)
      else if d["subscribers"].VList? then
        var xs :- StrsFromValues(d["subscribers"].items);
        Ok(Some(xs))
      else Err("mistyped subscribers");
    Ok(NewMonitoredChannel(platform, channelId, channelName, addedBy, lastVideoId,
      lastStreamId, isLive, Some(addedAt), subscribers, now))
  }

  lemma ChannelRoundTrip(c: MonitoredChannel, now: int)
    ensures ChannelFromDict(ChannelToDict(c), now) == Ok(c)
  {
    var d := ChannelToDict(c);
    StrsRoundTrip(c.subscribers);
    assert RequiredStr(d, "platform") == Ok(c.platform);
    assert RequiredStr(d, "channel_id") == Ok(c.channelId);
    assert RequiredStr(d, "channel_name") == Ok(c.channelName);
    assert OptionalStr(d, "added_by") == Ok(c.addedBy);
    assert OptionalStr(d, "last_video_id") == Ok(c.lastVideoId);
    assert OptionalStr(d, "last_stream_id") == Ok(c.lastStreamId);
    assert d["is_live"] == VBool(c.isLive) && d["added_at"] == VTime(c.addedAt);
    assert d["subscribers"] == VList(StrList(c.subscribers));
  }

  // ---- UserProfile ----------------------------------------------------------

  /** A song in a user's history. */
  datatype Song = Song(title: string, url: string, playedAt: int, artist: Option<string>, genre: Option<string>)

  /** How often a genre, artist or band has been played; `prefType` is the `type` field. */
  datatype MusicPreference = MusicPreference(name: string, prefType: string, count: int, lastUpdated: int)

  datatype UserProfile = UserProfile(
    discordId: string,
    username: string,
    displayName: Option<string>,
    musicHistory: seq<Song>,
    musicPreferences: seq<MusicPreference>,
    createdAt: int)

  /** The dataclass constructor with `__post_init__`: missing lists become empty and a
      missing creation time becomes now. */
  function NewUserProfile(
    discordId: string, username: string, displayName: Option<string>,
    musicHistory: Option<seq<Song>>, musicPreferences: Option<seq<MusicPreference>>,
    createdAt: Option<int>, now: int): (p: UserProfile)
    ensures p.musicHistory == (if musicHistory.None? then [] else musicHistory.value)
    ensures p.musicPreferences == (if musicPreferences.None? then [] else musicPreferences.value)
    ensures p.createdAt == (if createdAt.None? then now else createdAt.value)
    ensures p.discordId == discordId && p.username == username && p.displayName == displayName
  {
    UserProfile(discordId, username, displayName, musicHistory.GetOr([]),
      musicPreferences.GetOr([]), createdAt.GetOr(now))
  }

  function SongToDict(s: Song): Doc {
    map[
      "title" := VStr(s.title),
      "url" := VStr(s.url),
      "played_at" := VTime(s.playedAt),
      "artist" := StrValue(s.artist),
      "genre" := StrValue(s.genre)
    ]
  }

  function SongFromDict(d: Doc): Result<Song> {
    var title :- RequiredStr(d, "title");
    var url :- RequiredStr(d, "url");
    var playedAt :- RequiredTime(d, "played_at");
    var artist :- OptionalStr(d, "artist");
    var genre :- OptionalStr(d, "genre");
    Ok(Song(title, url, playedAt, artist, genre))
  }

  function PreferenceToDict(p: MusicPreference): Doc {
    map[
      "name" := VStr(p.name),
      "type" := VStr(p.prefType),
      "count" := VInt(p.count),
      "last_updated" := VTime(p.lastUpdated)
    ]
  }

  function PreferenceFromDict(d: Doc): Result<MusicPreference> {
    var name :- RequiredStr(d, "name");
    var prefType :- RequiredStr(d, "type");
    var count :- RequiredInt(d, "count");
    var lastUpdated :- RequiredTime(d, "last_updated");
    Ok(MusicPreference(name, prefType, count, lastUpdated))
  }

  function SongsToValues(songs: seq<Song>): (vs: seq<Value>)
    ensures |vs| == |songs|
  {
    seq(|songs|, i requires 0 <= i < |songs| => VDoc(SongToDict(songs[i])))
  }

  function PreferencesToValues(prefs: seq<MusicPreference>): (vs: seq<Value>)
    ensures |vs| == |prefs|
  {
    seq(|prefs|, i requires 0 <= i < |prefs| => VDoc(PreferenceToDict(prefs[i])))
  }

  /** The history comprehension of `from_dict`: every element must be a song document. */
  function SongsFromValues(vs: seq<Value>): (r: Result<seq<Song>>)
    ensures r.Ok? ==> |r.value| == |vs|
  {
    if vs == [] then Ok([])
    else if !vs[0].VDoc? then Err("song is not a document")
    else
      var song :- SongFromDict(vs[0].fields);
      var rest :- SongsFromValues(vs[1..]);
      Ok([song] + rest)
  }

  function PreferencesFromValues(vs: seq<Value>): (r: Result<seq<MusicPreference>>)
    ensures r.Ok? ==> |r.value| == |vs|
  {
    if vs == [] then Ok([])
    else if !vs[0].VDoc? then Err("preference is not a document")
    else
      var pref :- PreferenceFromDict(vs[0].fields);
      var rest :- PreferencesFromValues(vs[1..]);
      Ok([pref] + rest)
  }

  lemma {:induction false} SongsRoundTrip(songs: seq<Song>)
    ensures SongsFromValues(SongsToValues(songs)) == Ok(songs)
  {
    if songs != [] {
      assert SongsToValues(songs)[1..] == SongsToValues(songs[1..]);
      assert SongFromDict(SongToDict(songs[0])) == Ok(songs[0]);
      SongsRoundTrip(songs[1..]);
      assert [songs[0]] + songs[1..] == songs;
    }
  }

  lemma {:induction false} PreferencesRoundTrip(prefs: seq<MusicPreference>)
    ensures PreferencesFromValues(PreferencesToValues(prefs)) == Ok(prefs)
  {
    if prefs != [] {
      assert PreferencesToValues(prefs)[1..] == PreferencesToValues(prefs[1..]);
      assert PreferenceFromDict(PreferenceToDict(prefs[0])) == Ok(prefs[0]);
      PreferencesRoundTrip(prefs[1..]);
      assert [prefs[0]] + prefs[1..] == prefs;
    }
  }

  function ProfileToDict(p: UserProfile): Doc {
    map[
      "discord_id" := VStr(p.discordId),
      "username" := VStr(p.username),
      "display_name" := StrValue(p.displayName),
      "music_history" := VList(SongsToValues(p.musicHistory)),
      "music_preferences" := VList(PreferencesToValues(p.musicPreferences)),
      "created_at" := VTime(p.createdAt)
    ]
  }

  /** `UserProfile.from_dict`: `discord_id` and `username` are required; absent lists
      are empty; a missing or `None` creation time becomes now. */
  function ProfileFromDict(d: Doc, now: int): (r: Result<UserProfile>)
    ensures "discord_id" !in d || "username" !in d ==> r.Err?
    ensures r.Ok? && "music_history" !in d ==> r.value.musicHistory == []
    ensures r.Ok? && "music_preferences" !in d ==> r.value.musicPreferences == []
    ensures r.Ok? && ("created_at" !in d || d["created_at"] == VNull) ==> r.value.createdAt == now
  {
    var discordId :- RequiredStr(d, "discord_id");
    var username :- RequiredStr(d, "username");
    var displayName :- OptionalStr(d, "display_name");
    var history :-
      if "music_history" !in d then Ok([])
      else if d["music_history"].VList? then SongsFromValues(d["music_history"].items)
      else Err("music_history is not a list");
    var prefs :-
      if "music_preferences" !in d then Ok([])
      else if d["music_preferences"].VList? then PreferencesFromValues(d["music_preferences"].items)
      else Err("music_preferences is not a list");
    var createdAt :- OptionalTime(d, "created_at");
    Ok(NewUserProfile(discordId, username, displayName, Some(history), Some(prefs), createdAt, now))
  }

  /** Reading back a written profile gives the same profile: identity, display name and
      every history and preference entry in order. */
  lemma ProfileRoundTrip(p: UserProfile, now: int)
    ensures ProfileFromDict(ProfileToDict(p), now) == Ok(p)
  {
    var d := ProfileToDict(p);
    SongsRoundTrip(p.musicHistory);
    PreferencesRoundTrip(p.musicPreferences);
    assert RequiredStr(d, "discord_id") == Ok(p.discordId);
    assert RequiredStr(d, "username") == Ok(p.username);
    assert OptionalStr(d, "display_name") == Ok(p.displayName);
    assert d["music_history"] == VList(SongsToValues(p.musicHistory));
    assert d["music_preferences"] == VList(PreferencesToValues(p.musicPreferences));
    assert OptionalTime(d, "created_at") == Ok(Some(p.createdAt));
  }
}
