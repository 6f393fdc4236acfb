/** The `user_profiles` collection and the `Database` operations on it (db/database.py).
    The collection is a map from `discord_id` to the stored document: the profile and
    the list of monitored channels embedded in it. Every update is a pure transition
    on that map; the `Database` methods apply them in place. */
module ProfileStore {
  import opened Wrappers
  import opened Models
  import opened Preferences

  /** `$slice: -100` on the history push. */
  const HistoryLimit: nat := 100

  /** A stored profile document. `monitoredChannels` is the embedded
      `monitored_channels` array, absent (here: empty) until the first push. */
  datatype StoredProfile = StoredProfile(profile: UserProfile, monitoredChannels: seq<MonitoredChannel>)

  type Store = map<string, StoredProfile>

  /** `a` and `b` agree on every key other than `id`. */
  ghost predicate SameExcept(a: Store, b: Store, id: string) {
    forall k :: k != id ==> (k in a <==> k in b) && (k in a ==> a[k] == b[k])
  }

  /** No two channels of one profile share a (platform, channel_id) pair. */
  predicate UniqueChannels(chs: seq<MonitoredChannel>) {
    forall i, j :: 0 <= i < j < |chs| ==>
      !(chs[i].platform == chs[j].platform && chs[i].channelId == chs[j].channelId)
  }

  /** The invariant the operations keep: each document sits under its own
      `discord_id`, has one entry per preference pair, at most 100 history entries and
      one entry per monitored (platform, channel_id). */
  predicate ValidStore(st: Store) {
    forall id :: id in st ==>
      st[id].profile.discordId == id
      && UniquePairs(st[id].profile.musicPreferences)
      && |st[id].profile.musicHistory| <= HistoryLimit
      && UniqueChannels(st[id].monitoredChannels)
  }

  // ---- create_user_profile ---------------------------------------------------------

  /** The `$setOnInsert` upsert of a fresh profile: inserts one when the id is
      missing and leaves an existing document untouched. */
  function CreateProfile(st: Store, id: string, username: string, now: int): (r: Store)
    ensures id in r && SameExcept(st, r, id)
    ensures id in st ==> r == st
    ensures id !in st ==>
      var p := r[id].profile;
      p.discordId == id && p.username == username && p.displayName == None
      && p.musicHistory == [] && p.musicPreferences == [] && p.createdAt == now
      && r[id].monitoredChannels == []
    ensures ValidStore(st) ==> ValidStore(r)
  {
    if id in st then st
    else st[id := StoredProfile(NewUserProfile(id, username, None, Some([]), Some([]), Some(now), now), [])]
  }

  /** Creating a profile twice is creating it once: the second call finds the first
      document and changes nothing. */
  lemma CreateIdempotent(st: Store, id: string, username: string, now: int, username2: string, now2: int)
    ensures CreateProfile(CreateProfile(st, id, username, now), id, username2, now2)
      == CreateProfile(st, id, username, now)
  {
  }

  // ---- add_music_preference -----------------------------------------------------------

  /** `add_music_preference`: counts one play of (name, type) in the profile's
      preferences; an unknown user matches neither update. */
  function WithPreference(st: Store, id: string, name: string, prefType: string, now: int): (r: Store)
    ensures r.Keys == st.Keys && SameExcept(st, r, id)
    ensures id in st ==>
      r[id].monitoredChannels == st[id].monitoredChannels
      && r[id].profile == st[id].profile.(musicPreferences := r[id].profile.musicPreferences)
      && CountFor(r[id].profile.musicPreferences, name, prefType)
         == CountFor(st[id].profile.musicPreferences, name, prefType) + 1
    ensures id !in st ==> r == st
    ensures ValidStore(st) ==> ValidStore(r)
  {
    if id in st then
      var sp := st[id];
      var prefs := AddPreference(sp.profile.musicPreferences, name, prefType, now);
      AddPreferenceCounts(sp.profile.musicPreferences, name, prefType, now, name, prefType);
      if UniquePairs(sp.profile.musicPreferences) then
        AddPreferenceKeepsPairsUnique(sp.profile.musicPreferences, name, prefType, now);
        st[id := sp.(profile := sp.profile.(musicPreferences := prefs))]
      else
        st[id := sp.(profile := sp.profile.(musicPreferences := prefs))]
    else st
  }

  /** Counting a play of one pair leaves the counts of every other pair of that user
      as they were. */
  lemma WithPreferenceOthers(st: Store, id: string, name: string, prefType: string, now: int,
    otherName: string, otherType: string)
    requires id in st && !(otherName == name && otherType == prefType)
    ensures CountFor(WithPreference(st, id, name, prefType, now)[id].profile.musicPreferences, otherName, otherType)
      == CountFor(st[id].profile.musicPreferences, otherName, otherType)
  {
    AddPreferenceCounts(st[id].profile.musicPreferences, name, prefType, now, otherName, otherType);
  }

  // ---- add_to_music_history --------------------------------------------------------------

  /** The history after `$push` with `$each: [song]` and `$slice: -100`: the song at the
      end, preceded by the newest entries of the old history, at most 100 in all. */
  function AppendCapped(h: seq<Song>, song: Song): (r: seq<Song>)
    ensures |r| == if |h| + 1 <= HistoryLimit then |h| + 1 else HistoryLimit
    ensures r[|r| - 1] == song
    ensures forall i :: 0 <= i < |r| - 1 ==> r[i] == h[|h| - |r| + 1 + i]
  {
    var all := h + [song];
    if |all| <= HistoryLimit then all else all[|all| - HistoryLimit..]
  }

  /** Below the cap the push is a plain append. */
  lemma AppendCappedBelowLimit(h: seq<Song>, song: Song)
    requires |h| < HistoryLimit
    ensures AppendCapped(h, song) == h + [song]
  {
    var r := AppendCapped(h, song);
    assert forall i :: 0 <= i < |r| ==> r[i] == (h + [song])[i];
  }

  /** A song-info value is used only when it is present and non-empty. */
  predicate Truthy(o: Option<string>) {
    o.Some? && o.value != ""
  }

  /** `dict.get`: the value under `key`, if any. */
  function Get(info: map<string, string>, key: string): (r: Option<string>)
    ensures r.Some? <==> key in info
    ensures r.Some? ==> r.value == info[key]
  {
    if key in info then Some(info[key]) else None
  }

  /** The song the `Song(...)` call builds; None when `title` or `url` is missing
      (the `KeyError` the method catches). */
  function SongOf(info: map<string, string>, now: int): (r: Option<Song>)
    ensures r.Some? <==> "title" in info && "url" in info
    ensures r.Some? ==>
      && r.value.title == info["title"] && r.value.url == info["url"] && r.value.playedAt == now
      && r.value.artist == Get(info, "artist") && r.value.genre == Get(info, "genre")
  {
    if "title" in info && "url" in info then
      Some(Song(info["title"], info["url"], now, Get(info, "artist"), Get(info, "genre")))
    else None
  }

  /** The history push of `add_to_music_history` alone. */
  function WithHistoryEntry(st: Store, id: string, song: Song): (r: Store)
    ensures r.Keys == st.Keys && SameExcept(st, r, id)
    ensures id in st ==>
      r[id].monitoredChannels == st[id].monitoredChannels
      && r[id].profile == st[id].profile.(musicHistory := AppendCapped(st[id].profile.musicHistory, song))
    ensures id !in st ==> r == st
    ensures ValidStore(st) ==> ValidStore(r)
  {
    if id in st then
      var sp := st[id];
      st[id := sp.(profile := sp.profile.(musicHistory := AppendCapped(sp.profile.musicHistory, song)))]
    else st
  }

  /** The whole of `add_to_music_history` once the song is built: push it, then count
      its artist and then its genre, each only when present and non-empty. */
  function WithSong(st: Store, id: string, song: Song, now: int): (r: Store)
    ensures r.Keys == st.Keys && SameExcept(st, r, id)
    ensures ValidStore(st) ==> ValidStore(r)
  {
    var s1 := WithHistoryEntry(st, id, song);
    var s2 := if Truthy(song.artist) then WithPreference(s1, id, song.artist.value, "artist", now) else s1;
    if Truthy(song.genre) then WithPreference(s2, id, song.genre.value, "genre", now) else s2
  }

  /** What recording a song does to the rest of the user's document: the history
      ends with the song, and the channels and the other profile fields stay. */
  lemma WithSongKeeps(st: Store, id: string, song: Song, now: int)
    requires id in st
    ensures var r := WithSong(st, id, song, now);
      r[id].monitoredChannels == st[id].monitoredChannels
      && r[id].profile == st[id].profile.(musicHistory := AppendCapped(st[id].profile.musicHistory, song),
                                          musicPreferences := r[id].profile.musicPreferences)
  {
    var s1 := WithHistoryEntry(st, id, song);
    assert s1[id].profile == st[id].profile.(musicHistory := AppendCapped(st[id].profile.musicHistory, song));
  }

  /** What recording a song does to the user's preferences: the artist and the genre
      are each counted once when present and non-empty, and nothing is counted when
      neither is. */
  lemma WithSongCounts(st: Store, id: string, song: Song, now: int)
    requires id in st
    ensures var p, q := st[id].profile.musicPreferences, WithSong(st, id, song, now)[id].profile.musicPreferences;
      && (Truthy(song.artist) ==>
            CountFor(q, song.artist.value, "artist") == CountFor(p, song.artist.value, "artist") + 1)
      && (Truthy(song.genre) ==>
            CountFor(q, song.genre.value, "genre") == CountFor(p, song.genre.value, "genre") + 1)
      && (!Truthy(song.artist) && !Truthy(song.genre) ==> q == p)
      && (forall n, t :: !Counted(song, n, t) ==> CountFor(q, n, t) == CountFor(p, n, t))
  {
    var s1 := WithHistoryEntry(st, id, song);
    assert s1[id].profile.musicPreferences == st[id].profile.musicPreferences;
    var s2 := if Truthy(song.artist) then WithPreference(s1, id, song.artist.value, "artist", now) else s1;
    if Truthy(song.artist) && Truthy(song.genre) {
      WithPreferenceOthers(s1, id, song.artist.value, "artist", now, song.genre.value, "genre");
      WithPreferenceOthers(s2, id, song.genre.value, "genre", now, song.artist.value, "artist");
    }
    forall n, t | !Counted(song, n, t)
      ensures CountFor(WithSong(st, id, song, now)[id].profile.musicPreferences, n, t)
        == CountFor(st[id].profile.musicPreferences, n, t)
    {
      if Truthy(song.artist) {
        WithPreferenceOthers(s1, id, song.artist.value, "artist", now, n, t);
      }
      if Truthy(song.genre) {
        WithPreferenceOthers(s2, id, song.genre.value, "genre", now, n, t);
      }
    }
  }

  /** Whether recording `song` counts a play of the pair (name, type): its artist as
      an "artist", its genre as a "genre", each when present and non-empty. */
  predicate Counted(song: Song, name: string, prefType: string) {
    || (Truthy(song.artist) && name == song.artist.value && prefType == "artist")
    || (Truthy(song.genre) && name == song.genre.value && prefType == "genre")
  }

  // ---- monitored channels -----------------------------------------------------------

  predicate SameChannel(c: MonitoredChannel, platform: string, channelId: string) {
    c.platform == platform && c.channelId == channelId
  }

  /** The `$elemMatch` on (platform, channel_id). */
  predicate HasChannel(chs: seq<MonitoredChannel>, platform: string, channelId: string) {
    exists i :: 0 <= i < |chs| && SameChannel(chs[i], platform, channelId)
  }

  /** Whether `add_monitored_channel` pushes: the user exists and does not yet
      monitor that (platform, channel_id). */
  predicate ChannelAdded(st: Store, id: string, ch: MonitoredChannel) {
    id in st && !HasChannel(st[id].monitoredChannels, ch.platform, ch.channelId)
  }

  /** `add_monitored_channel`: appends the channel unless the user is unknown or
      already has an entry with its (platform, channel_id). */
  function WithChannel(st: Store, id: string, ch: MonitoredChannel): (r: Store)
    ensures r.Keys == st.Keys && SameExcept(st, r, id)
    ensures ChannelAdded(st, id, ch) ==>
      r[id].profile == st[id].profile && r[id].monitoredChannels == st[id].monitoredChannels + [ch]
    ensures !ChannelAdded(st, id, ch) ==> r == st
    ensures ValidStore(st) ==> ValidStore(r)
  {
    if ChannelAdded(st, id, ch) then
      var sp := st[id];
      var chs := sp.monitoredChannels + [ch];
      assert UniqueChannels(sp.monitoredChannels) ==> UniqueChannels(chs) by {
        if UniqueChannels(sp.monitoredChannels) {
          forall i, j | 0 <= i < j < |chs|
            ensures !(chs[i].platform == chs[j].platform && chs[i].channelId == chs[j].channelId)
          {
            if j == |sp.monitoredChannels| {
              assert !SameChannel(sp.monitoredChannels[i], ch.platform, ch.channelId);
            }
          }
        }
      }
      st[id := sp.(monitoredChannels := chs)]
    else st
  }

  /** A channel just added is found by the duplicate check, so adding it again is
      refused. */
  lemma AddChannelTwice(st: Store, id: string, ch: MonitoredChannel)
    requires ChannelAdded(st, id, ch)
    ensures !ChannelAdded(WithChannel(st, id, ch), id, ch)
  {
    var chs := WithChannel(st, id, ch)[id].monitoredChannels;
    assert SameChannel(chs[|chs| - 1], ch.platform, ch.channelId);
  }

  predicate Named(c: MonitoredChannel, platform: string, channelName: string) {
    c.platform == platform && c.channelName == channelName
  }

  /** The `$pull` on (platform, channel_name): every matching entry goes, the rest
      stay in order. */
  function Unmatched(chs: seq<MonitoredChannel>, platform: string, channelName: string): (r: seq<MonitoredChannel>)
    ensures forall c :: c in r <==> c in chs && !Named(c, platform, channelName)
    ensures |r| <= |chs|
    ensures (forall c :: c in chs ==> !Named(c, platform, channelName)) ==> r == chs
    ensures (exists c :: c in chs && Named(c, platform, channelName)) ==> |r| < |chs|
    ensures UniqueChannels(chs) ==> UniqueChannels(r)
  {
    if chs == [] then []
    else
      var rest := Unmatched(chs[1..], platform, channelName);
      assert forall c :: c in chs <==> c == chs[0] || c in chs[1..];
      if Named(chs[0], platform, channelName) then rest
      else
        assert UniqueChannels(chs) ==> UniqueChannels([chs[0]] + rest) by {
          if UniqueChannels(chs) {
            assert UniqueChannels(chs[1..]);
            KeptFirstUnique(chs, rest);
          }
        }
        [chs[0]] + rest
  }

  /** Keeping the head of a duplicate-free list in front of a duplicate-free
      selection of its tail leaves no duplicates. */
  lemma KeptFirstUnique(chs: seq<MonitoredChannel>, rest: seq<MonitoredChannel>)
    requires chs != [] && UniqueChannels(chs) && UniqueChannels(rest)
    requires forall c :: c in rest ==> c in chs[1..]
    ensures UniqueChannels([chs[0]] + rest)
  {
    var r := [chs[0]] + rest;
    forall i, j | 0 <= i < j < |r|
      ensures !(r[i].platform == r[j].platform && r[i].channelId == r[j].channelId)
    {
      if i == 0 {
        assert r[j] in rest;
        var k :| 0 <= k < |chs[1..]| && chs[1..][k] == r[j];
        assert chs[k + 1] == r[j];
      } else {
        assert r[i] == rest[i - 1] && r[j] == rest[j - 1];
      }
    }
  }

  /** Whether `remove_monitored_channel` modifies the document: the user exists and
      monitors at least one channel with that platform and name. */
  predicate ChannelRemoved(st: Store, id: string, platform: string, channelName: string) {
    id in st && exists c :: c in st[id].monitoredChannels && Named(c, platform, channelName)
  }

  /** `remove_monitored_channel` on the store. */
  function WithoutChannel(st: Store, id: string, platform: string, channelName: string): (r: Store)
    ensures r.Keys == st.Keys && SameExcept(st, r, id)
    ensures id in st ==>
      r[id].profile == st[id].profile
      && r[id].monitoredChannels == Unmatched(st[id].monitoredChannels, platform, channelName)
    ensures id !in st ==> r == st
    ensures ChannelRemoved(st, id, platform, channelName) <==> r != st
    ensures ValidStore(st) ==> ValidStore(r)
  {
    if id in st then
      var sp := st[id];
      var chs := Unmatched(sp.monitoredChannels, platform, channelName);
      var r := st[id := sp.(monitoredChannels := chs)];
      assert r != st ==> chs != sp.monitoredChannels;
      r
    else st
  }

  /** The first entry that `$elemMatch` on (channel_id, platform) finds, which the
      positional `$` then updates. */
  function FirstChannel(chs: seq<MonitoredChannel>, platform: string, channelId: string): (r: Option<nat>)
    ensures r.Some? ==> r.value < |chs| && SameChannel(chs[r.value], platform, channelId)
    ensures r.Some? ==> forall j :: 0 <= j < r.value ==> !SameChannel(chs[j], platform, channelId)
    ensures r.None? <==> !HasChannel(chs, platform, channelId)
  {
    if chs == [] then None
    else if SameChannel(chs[0], platform, channelId) then Some(0)
    else
      var rest := FirstChannel(chs[1..], platform, channelId);
      assert HasChannel(chs, platform, channelId) ==> HasChannel(chs[1..], platform, channelId) by {
        if HasChannel(chs, platform, channelId) {
          var i :| 0 <= i < |chs| && SameChannel(chs[i], platform, channelId);
          assert chs[1..][i - 1] == chs[i];
        }
      }
      if rest.None? then None else Some(rest.value + 1)
  }

  /** Replaces entry `i` of user `id`'s channels. */
  function SetChannel(st: Store, id: string, i: nat, c: MonitoredChannel): (r: Store)
    requires id in st && i < |st[id].monitoredChannels|
    requires SameChannel(c, st[id].monitoredChannels[i].platform, st[id].monitoredChannels[i].channelId)
    ensures r.Keys == st.Keys && SameExcept(st, r, id)
    ensures r[id].profile == st[id].profile
    ensures r[id].monitoredChannels == st[id].monitoredChannels[i := c]
    ensures ValidStore(st) ==> ValidStore(r)
  {
    var sp := st[id];
    st[id := sp.(monitoredChannels := sp.monitoredChannels[i := c])]
  }

  /** Replacing an entry changes the store exactly when the new entry differs. */
  lemma SetChannelUnchanged(st: Store, id: string, i: nat, c: MonitoredChannel)
    requires id in st && i < |st[id].monitoredChannels|
    requires SameChannel(c, st[id].monitoredChannels[i].platform, st[id].monitoredChannels[i].channelId)
    ensures SetChannel(st, id, i, c) == st <==> c == st[id].monitoredChannels[i]
  {
    var r := SetChannel(st, id, i, c);
    if c == st[id].monitoredChannels[i] {
      assert st[id].monitoredChannels[i := c] == st[id].monitoredChannels;
      assert r[id] == st[id];
      assert r == st;
    } else {
      assert r[id].monitoredChannels[i] != st[id].monitoredChannels[i];
    }
  }

  /** Whether `update_channel_last_video` modifies the document: a YouTube entry with
      that id exists and the first one holds a different marker. */
  predicate LastVideoChanged(st: Store, id: string, channelId: string, videoId: string) {
    id in st
    && var i := FirstChannel(st[id].monitoredChannels, "youtube", channelId);
    i.Some? && st[id].monitoredChannels[i.value].lastVideoId != Some(videoId)
  }

  /** `update_channel_last_video`: sets `last_video_id` on the first YouTube entry
      with that channel id and changes nothing else. */
  function WithLastVideo(st: Store, id: string, channelId: string, videoId: string): (r: Store)
    ensures r.Keys == st.Keys && SameExcept(st, r, id)
    ensures ValidStore(st) ==> ValidStore(r)
    ensures (id !in st || !HasChannel(st[id].monitoredChannels, "youtube", channelId)) ==> r == st
    ensures id in st && HasChannel(st[id].monitoredChannels, "youtube", channelId) ==>
      var i := FirstChannel(st[id].monitoredChannels, "youtube", channelId).value;
      r[id].profile == st[id].profile
      && |r[id].monitoredChannels| == |st[id].monitoredChannels|
      && r[id].monitoredChannels[i] == st[id].monitoredChannels[i].(lastVideoId := Some(videoId))
      && forall j :: 0 <= j < |st[id].monitoredChannels| && j != i ==>
           r[id].monitoredChannels[j] == st[id].monitoredChannels[j]
    ensures LastVideoChanged(st, id, channelId, videoId) <==> r != st
  {
    if id !in st then st
    else
      var chs := st[id].monitoredChannels;
      var i := FirstChannel(chs, "youtube", channelId);
      if i.None? then st
      else
        var c := chs[i.value].(lastVideoId := Some(videoId));
        var r := SetChannel(st, id, i.value, c);
        assert r[id].monitoredChannels[i.value] == c;
        SetChannelUnchanged(st, id, i.value, c);
        r
  }

  /** The new live state of a Twitch entry: the stream id, live exactly when it is
      non-empty (`bool(stream_id)`). */
  function StreamStatus(c: MonitoredChannel, streamId: string): (r: MonitoredChannel)
    ensures r.lastStreamId == Some(streamId) && (r.isLive <==> streamId != "")
    ensures r.(lastStreamId := c.lastStreamId, isLive := c.isLive) == c
  {
    c.(lastStreamId := Some(streamId), isLive := streamId != "")
  }

  /** Whether `update_channel_stream_status` modifies the document. */
  predicate StreamStatusChanged(st: Store, id: string, channelId: string, streamId: string) {
    id in st
    && var i := FirstChannel(st[id].monitoredChannels, "twitch", channelId);
    i.Some? && StreamStatus(st[id].monitoredChannels[i.value], streamId) != st[id].monitoredChannels[i.value]
  }

  /** `update_channel_stream_status`: sets `last_stream_id` and `is_live` on the first
      Twitch entry with that channel id and changes nothing else. */
  function WithStreamStatus(st: Store, id: string, channelId: string, streamId: string): (r: Store)
    ensures r.Keys == st.Keys && SameExcept(st, r, id)
    ensures ValidStore(st) ==> ValidStore(r)
    ensures (id !in st || !HasChannel(st[id].monitoredChannels, "twitch", channelId)) ==> r == st
    ensures id in st && HasChannel(st[id].monitoredChannels, "twitch", channelId) ==>
      var i := FirstChannel(st[id].monitoredChannels, "twitch", channelId).value;
      r[id].profile == st[id].profile
      && |r[id].monitoredChannels| == |st[id].monitoredChannels|
      && r[id].monitoredChannels[i] == StreamStatus(st[id].monitoredChannels[i], streamId)
      && forall j :: 0 <= j < |st[id].monitoredChannels| && j != i ==>
           r[id].monitoredChannels[j] == st[id].monitoredChannels[j]
    ensures StreamStatusChanged(st, id, channelId, streamId) <==> r != st
  {
    if id !in st then st
    else
      var chs := st[id].monitoredChannels;
      var i := FirstChannel(chs, "twitch", channelId);
      if i.None? then st
      else
        var c := StreamStatus(chs[i.value], streamId);
        var r := SetChannel(st, id, i.value, c);
        assert r[id].monitoredChannels[i.value] == c;
        SetChannelUnchanged(st, id, i.value, c);
        r
  }

  /** Writing the same stream marker twice changes nothing the second time, so the
      second call reports no modification. */
  lemma StreamStatusIdempotent(st: Store, id: string, channelId: string, streamId: string)
    ensures var r := WithStreamStatus(st, id, channelId, streamId);
      WithStreamStatus(r, id, channelId, streamId) == r
      && !StreamStatusChanged(r, id, channelId, streamId)
  {
    var r := WithStreamStatus(st, id, channelId, streamId);
    if id in st && HasChannel(st[id].monitoredChannels, "twitch", channelId) {
      var i := FirstChannel(st[id].monitoredChannels, "twitch", channelId).value;
      var chs := r[id].monitoredChannels;
      assert SameChannel(chs[i], "twitch", channelId);
      assert forall j :: 0 <= j < i ==> chs[j] == st[id].monitoredChannels[j];
      assert FirstChannel(chs, "twitch", channelId) == Some(i);
    }
  }

  // ---- the Database object ------------------------------------------------------------

  /** The `Database` object with its `user_profiles` collection. */
  class Database {
    var profiles: Store

    ghost predicate Valid()
      reads this
    {
      ValidStore(profiles)
    }

    constructor()
      ensures Valid() && profiles == map[]
    {
      profiles := map[];
    }

    /** `create_user_profile`: upserts a fresh profile and always succeeds. */
    method CreateUserProfile(discordId: string, username: string, now: int) returns (ok: bool)
      requires Valid()
      modifies this
      ensures Valid() && ok
      ensures profiles == CreateProfile(old(profiles), discordId, username, now)
    {
      profiles := CreateProfile(profiles, discordId, username, now);
      ok := true;
    }

    /** `add_music_preference`: pushes or counts the pair and always succeeds, even
        for an unknown user. */
    method AddMusicPreference(discordId: string, name: string, prefType: string, now: int) returns (ok: bool)
      requires Valid()
      modifies this
      ensures Valid() && ok
      ensures profiles == WithPreference(old(profiles), discordId, name, prefType, now)
    {
      profiles := WithPreference(profiles, discordId, name, prefType, now);
      ok := true;
    }

    /** `add_to_music_history`: a song info without a title or url changes nothing and
        fails; otherwise the song is recorded and the call succeeds exactly when the
        user exists (the history push modified a document). */
    method AddToMusicHistory(discordId: string, songInfo: map<string, string>, now: int) returns (ok: bool)
      requires Valid()
      modifies this
      ensures Valid()
      ensures SongOf(songInfo, now).None? ==> !ok && profiles == old(profiles)
      ensures SongOf(songInfo, now).Some? ==>
        ok == (discordId in old(profiles))
        && profiles == WithSong(old(profiles), discordId, SongOf(songInfo, now).value, now)
    {
      var song := SongOf(songInfo, now);
      if song.None? {
        return false;
      }
      var s := song.value;
      ok := discordId in profiles;
      profiles := WithHistoryEntry(profiles, discordId, s);
      if Truthy(s.artist) {
        var _ := AddMusicPreference(discordId, s.artist.value, "artist", now);
      }
      if Truthy(s.genre) {
        var _ := AddMusicPreference(discordId, s.genre.value, "genre", now);
      }
    }

    /** `get_top_preferences`: nothing for an unknown user, otherwise at most `limit`
        of the user's preferences (of the given type, when one is given), most played
        first. */
    function GetTopPreferences(discordId: string, prefType: Option<string>, limit: int): (r: seq<MusicPreference>)
      reads this
      ensures discordId !in profiles ==> r == []
      ensures SortedByCount(r)
      ensures limit >= 0 ==> |r| <= limit
      ensures discordId in profiles ==>
        multiset(r) <= multiset(Candidates(profiles[discordId].profile.musicPreferences, prefType))
        && |r| == SliceLength(|Candidates(profiles[discordId].profile.musicPreferences, prefType)|, limit)
      ensures prefType.Some? && prefType.value != "" ==>
        forall i :: 0 <= i < |r| ==> r[i].prefType == prefType.value
    {
      if discordId in profiles then TopPreferences(profiles[discordId].profile.musicPreferences, prefType, limit)
      else []
    }

    /** `add_monitored_channel`: appends the channel unless it is a duplicate or the
        user is unknown, and reports whether it did. */
    method AddMonitoredChannel(discordId: string, channel: MonitoredChannel) returns (ok: bool)
      requires Valid()
      modifies this
      ensures Valid()
      ensures ok == ChannelAdded(old(profiles), discordId, channel)
      ensures profiles == WithChannel(old(profiles), discordId, channel)
    {
      if discordId in profiles && HasChannel(profiles[discordId].monitoredChannels, channel.platform, channel.channelId) {
        return false;
      }
      ok := discordId in profiles;
      profiles := WithChannel(profiles, discordId, channel);
    }

    /** `remove_monitored_channel`: pulls every entry with that platform and name and
        reports whether any went. */
    method RemoveMonitoredChannel(discordId: string, platform: string, channelName: string) returns (ok: bool)
      requires Valid()
      modifies this
      ensures Valid()
      ensures ok == ChannelRemoved(old(profiles), discordId, platform, channelName)
      ensures profiles == WithoutChannel(old(profiles), discordId, platform, channelName)
    {
      var next := WithoutChannel(profiles, discordId, platform, channelName);
      ok := next != profiles;
      profiles := next;
    }

    /** `update_channel_last_video`: reports whether the marker actually changed. */
    method UpdateChannelLastVideo(discordId: string, channelId: string, videoId: string) returns (ok: bool)
      requires Valid()
      modifies this
      ensures Valid()
      ensures ok == LastVideoChanged(old(profiles), discordId, channelId, videoId)
      ensures profiles == WithLastVideo(old(profiles), discordId, channelId, videoId)
    {
      var next := WithLastVideo(profiles, discordId, channelId, videoId);
      ok := next != profiles;
      profiles := next;
    }

    /** `update_channel_stream_status`: reports whether the live state actually changed. */
    method UpdateChannelStreamStatus(discordId: string, channelId: string, streamId: string) returns (ok: bool)
      requires Valid()
      modifies this
      ensures Valid()
      ensures ok == StreamStatusChanged(old(profiles), discordId, channelId, streamId)
      ensures profiles == WithStreamStatus(old(profiles), discordId, channelId, streamId)
    {
      var next := WithStreamStatus(profiles, discordId, channelId, streamId);
      ok := next != profiles;
      profiles := next;
    }

    /** `get_all_profiles_with_monitored_channels`: one profile per document whose
        channel list is non-empty, in the cursor's (unspecified) order. */
    method GetAllProfilesWithMonitoredChannels() returns (result: seq<UserProfile>)
      requires Valid()
      ensures forall i :: 0 <= i < |result| ==>
        result[i].discordId in profiles
        && profiles[result[i].discordId].monitoredChannels != []
        && profiles[result[i].discordId].profile == result[i]
      ensures forall id :: id in profiles && profiles[id].monitoredChannels != [] ==>
        profiles[id].profile in result
      ensures forall i, j :: 0 <= i < j < |result| ==> result[i].discordId != result[j].discordId
    {
      result := [];
      var remaining := profiles.Keys;
      while remaining != {}
        invariant remaining <= profiles.Keys
        invariant forall i :: 0 <= i < |result| ==>
          result[i].discordId in profiles && result[i].discordId !in remaining
          && profiles[result[i].discordId].monitoredChannels != []
          && profiles[result[i].discordId].profile == result[i]
        invariant forall id :: id in profiles && id !in remaining && profiles[id].monitoredChannels != [] ==>
          profiles[id].profile in result
        invariant forall i, j :: 0 <= i < j < |result| ==> result[i].discordId != result[j].discordId
        decreases remaining
      {
        var id :| id in remaining;
        if profiles[id].monitoredChannels != [] {
          result := result + [profiles[id].profile];
        }
        remaining := remaining - {id};
      }
    }
  }
}
