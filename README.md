# A Discord bot's decision logic, in Dafny

The bot is a Discord bot for one community. It offers:
- a music jukebox: `!play` queues YouTube videos and playlists per guild, a next-track rule with autoplay, `!leave`, `!recommend` and `!profile`;
- a MongoDB store of user profiles: play history, music preferences and monitored channels;
- a poller that announces new YouTube videos and Twitch lives;
- two presence listeners that open and close game sessions;
- the `!rank` command.

This project models the parts of that code that decide things, once Discord, the YouTube and Twitch APIs, yt_dlp and MongoDB are replaced by inputs. It then proves what those parts promise.

| file | models |
|---|---|
| `wrappers.dfy` | `Option` and `Result` |
| `text.dfy` | the Python string operations used: `startswith`, `in`, `split(...)[-1]`, `split(...)[0]`, `lstrip`, `replace`, ASCII `lower` |
| `discord.dfy` | a guild member with its activities, and the session calls the listeners make |
| `models.dfy` | `db/models.py`: the records, their `to_dict`/`from_dict` over a document (`map<string, Value>`), and the `__post_init__` defaults |
| `preferences.dfy` | the preference list of a profile: "push `{name, type, count: 1}` or else increment", and the top-N by count |
| `profile_store.dfy` | `db/database.py`: the `user_profiles` collection, a map from `discord_id` to the stored profile with its embedded `monitored_channels` list. Each operation is a pure transition; the `Database` class applies it in place. |
| `monitor.dfy` | `bot/monitor.py`: the YouTube and Twitch change detection, the channel-reference parser, and the Twitch client field of `ChannelMonitor` |
| `scheduler.dfy` | `bot/scheduler.py`: one polling tick as the sequence of messages sent and markers written, with an abort at a failing send; task start/stop |
| `ranking.dfy` | `bot/commands_ranking.py`: the set-difference presence listener and the `!rank` dispatch |
| `activity_tracker.dfy` | `bot/cogs_activity.py`: the dict-keyed presence listener and the member sync loop |
| `youtube_urls.dfy` | `clean_youtube_url` and `is_youtube_url` (`bot/utils.py`, the same code in `main.py`) |
| `playback.dfy` | the per-guild queue state of `main.py` and `bot/commands_music.py`, covering both `!play` commands, the next-track rule, `!leave`, the voice cleanup, and the `!recommend`/`!profile` selections |

**Inputs.** Clocks are an integer parameter `now`. A remote fetch is an `Option` input, `None` when the call raises. API lookups are function parameters (oracles). Discord facts are booleans:
- whether the command came from the right channel;
- whether the author is in voice;
- whether a voice client exists and connecting succeeds;
- whether the player is idle;
- whether the bot is ready;
- whether the notification channel resolves.

Both `!play` commands are methods proved against spec functions of the old state (`MainPlay`, `CogPlay`). The properties of the commands are lemmas about those functions.

## Model

| member | source | states |
|---|---|---|
| Models.ActivityFromDict | db/models.py:37-42 | `name` is required (missing gives an error); `created_at` is read back when present and defaults to now when absent |
| Models.ActivityToDict | db/models.py:44-48 | `Activity.to_dict`; `ActivityRoundTrip` states that `ActivityFromDict` reads it back |
| Models.ActivityRoundTrip | db/models.py:37-48 | `Activity.from_dict(a.to_dict()) == a` |
| Models.DurationSeconds | db/models.py:60-65 | None exactly when the session has no end time, otherwise start + duration == end |
| Models.HistoryFromDict | db/models.py:67-74 | user, activity and start time are required; a missing or null `end_time` gives an open session |
| Models.HistoryToDict | db/models.py:76-82 | `ActivityHistory.to_dict`; `HistoryRoundTrip` and `HistoryFromDictToDict` relate it to `HistoryFromDict` |
| Models.HistoryRoundTrip | db/models.py:67-82 | `ActivityHistory.from_dict(h.to_dict()) == h` |
| Models.HistoryFromDictToDict | db/models.py:67-82 | a document that reads back is written again with the same fields; the only change is that a missing `end_time` is written as null |
| Models.NewMonitoredChannel | db/models.py:93-105 | missing subscribers become `[]`; a missing `added_at` is the class-definition time; every other field is as given |
| Models.ChannelToDict | db/models.py:121-132 | `to_dict` always writes `subscribers` as a list |
| Models.ChannelFromDict | db/models.py:107-119 | `is_live` defaults to false, `added_at` to now, and an absent or null subscriber list to `[]` |
| Models.ChannelRoundTrip | db/models.py:107-132 | `MonitoredChannel.from_dict(c.to_dict()) == c`, subscribers included |
| Models.NewUserProfile | db/models.py:139-155 | missing history and preferences become `[]`; a missing creation time becomes now; the identity fields are as given |
| Models.SongToDict | db/models.py:193-199 | one history entry as `UserProfile.to_dict` writes it; `SongsRoundTrip` states `SongFromDict` reads it back |
| Models.SongFromDict | db/models.py:165-171 | one history entry as `UserProfile.from_dict` reads it: title, url and played_at required, artist and genre optional |
| Models.PreferenceToDict | db/models.py:203-208 | one preference as `UserProfile.to_dict` writes it; `PreferencesRoundTrip` states `PreferenceFromDict` reads it back |
| Models.PreferenceFromDict | db/models.py:175-180 | one preference as `UserProfile.from_dict` reads it: every field required |
| Models.ProfileToDict | db/models.py:186-212 | `UserProfile.to_dict`; `ProfileRoundTrip` states that `ProfileFromDict` reads it back |
| Models.SongsFromValues | db/models.py:164-173 | a successful read of the history gives one song per stored entry |
| Models.PreferencesFromValues | db/models.py:174-182 | a successful read of the preferences gives one preference per stored entry |
| Models.SongsRoundTrip | db/models.py:164-201 | reading back the written history gives every song in order |
| Models.PreferencesRoundTrip | db/models.py:174-210 | reading back the written preferences gives every preference in order |
| Models.ProfileFromDict | db/models.py:157-184 | `discord_id` and `username` are required; absent lists read as `[]`; a missing or null creation time becomes now |
| Models.ProfileRoundTrip | db/models.py:157-211 | `UserProfile.from_dict(p.to_dict()) == p`: id, username, display name, and every history and preference entry in order |
| Preferences.IndexOf | db/database.py:62-69 | the first entry matching (name, type), or None when no entry matches |
| Preferences.AddPreference | db/database.py:59-95 | with no (name, type) entry, appends `{name, type, 1, now}`; otherwise the first matching entry gets count + 1 and `last_updated = now`, the length is kept and every non-matching entry is unchanged |
| Preferences.AddPreferenceCounts | db/database.py:59-95 | the pair's count goes up by exactly one; every other pair's count is unchanged |
| Preferences.AddPreferenceKeepsPairsUnique | db/database.py:59-81 | counting a play never creates a second entry for a (name, type) pair |
| Preferences.SortByCount | db/database.py:151 | the result is sorted by count, descending, and is a permutation of the input |
| Preferences.OfType | db/database.py:148-149 | keeps exactly the entries of the type: every kept entry has it, each entry of the type is kept as many times as it occurs, nothing else is kept, and the kept entries stay in their order (a subsequence of the input) |
| Preferences.SliceTo | db/database.py:151 | Python's `[:limit]`: a prefix of length `limit` clamped to the list, with a negative limit counting from the end |
| Preferences.TopPreferences | db/database.py:143-151 | sorted by count descending; a sub-multiset of the candidates; exactly as long as `[:limit]` of the candidates (min(limit, n), or max(n + limit, 0) for a negative limit); every entry of the requested type when a type is given |
| Preferences.TopPreferencesAreTop | db/database.py:151 | every candidate left out has a count no greater than any chosen one |
| ProfileStore.CreateProfile | db/database.py:32-53 | an existing profile is untouched; a missing one is inserted empty with the given name and time; other users are unchanged; the store invariant is kept |
| ProfileStore.CreateIdempotent | db/database.py:43-47 | creating a profile twice is the same as creating it once |
| ProfileStore.WithPreference | db/database.py:55-101 | for a known user only the preference list changes, and the pair's count goes up by one; an unknown user changes nothing; other users are unchanged |
| ProfileStore.WithPreferenceOthers | db/database.py:85-95 | the counts of the user's other pairs are unchanged |
| ProfileStore.AppendCapped | db/database.py:115-125 | the song is last; before it come the newest old entries; the length is min(old + 1, 100) |
| ProfileStore.AppendCappedBelowLimit | db/database.py:118-121 | below 100 entries the capped push is a plain append |
| ProfileStore.Get | db/database.py:110-111 | `dict.get`: present exactly when the key is, with its value |
| ProfileStore.SongOf | db/database.py:106-112 | a song exists exactly when `title` and `url` are given; it carries them, `now`, and the optional artist and genre |
| ProfileStore.WithHistoryEntry | db/database.py:115-125 | only the user's history changes, to the capped append; an unknown user changes nothing |
| ProfileStore.WithSong | db/database.py:114-131 | only the recording user's document changes; the store invariant is kept |
| ProfileStore.WithSongKeeps | db/database.py:114-125 | recording a song appends it to the capped history and keeps the channels and the other profile fields |
| ProfileStore.WithSongCounts | db/database.py:127-131 | artist and genre are each counted once, only when present and non-empty; every other (name, type) pair keeps its count; with neither, the preferences are unchanged |
| ProfileStore.WithChannel | db/database.py:167-189 | appends the channel when the user exists and has no entry with its (platform, channel_id); otherwise the store is unchanged; uniqueness is kept |
| ProfileStore.AddChannelTwice | db/database.py:171-182 | once a channel is added, adding it again is refused |
| ProfileStore.Unmatched | db/database.py:197-207 | the `$pull` removes exactly the entries matching (platform, channel_name); it shrinks iff one matched and keeps uniqueness |
| ProfileStore.WithoutChannel | db/database.py:194-211 | only that user's channel list changes; the store changes iff a matching entry existed |
| ProfileStore.FirstChannel | db/database.py:217-225 | the first entry matching (platform, channel_id), None iff there is none |
| ProfileStore.SetChannel | db/database.py:226-230 | a positional `$set` replaces one entry of one user and nothing else |
| ProfileStore.SetChannelUnchanged | db/database.py:232 | a positional set changes the store iff the new entry differs (a `modified_count` of zero otherwise) |
| ProfileStore.WithLastVideo | db/database.py:213-235 | sets only `last_video_id` of the first YouTube entry with that id; all other entries and users are unchanged; the store changes iff the marker differed |
| ProfileStore.StreamStatus | db/database.py:251-254 | sets `last_stream_id`; `is_live` is true iff the id is non-empty; no other field changes |
| ProfileStore.WithStreamStatus | db/database.py:237-260 | applies that to the first Twitch entry with that id and nothing else; the store changes iff the entry differed |
| ProfileStore.StreamStatusIdempotent | db/database.py:240-257 | writing the same stream status again changes nothing and reports no modification |
| ProfileStore.Database.CreateUserProfile | db/database.py:32-53 | returns true; the new collection is `CreateProfile` of the old one |
| ProfileStore.Database.AddMusicPreference | db/database.py:55-101 | returns true; the new collection is `WithPreference` of the old one |
| ProfileStore.Database.AddToMusicHistory | db/database.py:103-137 | without title or url: false and nothing changes; otherwise `WithSong`, returning whether the user exists |
| ProfileStore.Database.GetTopPreferences | db/database.py:139-154 | `[]` for an unknown user; otherwise sorted by count, exactly as long as `[:limit]` of the candidates, drawn from the user's preferences, of the requested type |
| ProfileStore.Database.AddMonitoredChannel | db/database.py:167-192 | returns whether the channel was appended, and the new collection is `WithChannel` |
| ProfileStore.Database.RemoveMonitoredChannel | db/database.py:194-211 | returns whether any entry was pulled, and the new collection is `WithoutChannel` |
| ProfileStore.Database.UpdateChannelLastVideo | db/database.py:213-235 | returns whether the marker changed, and the new collection is `WithLastVideo` |
| ProfileStore.Database.UpdateChannelStreamStatus | db/database.py:237-260 | returns whether the live state changed, and the new collection is `WithStreamStatus` |
| ProfileStore.Database.GetAllProfilesWithMonitoredChannels | db/database.py:262-274 | exactly the stored profiles with a non-empty channel list, each once |
| Monitor.ChooseThumbnail | bot/monitor.py:76-83 | the URL of the first size present in the order maxres, high, medium, default; None when none is present |
| Monitor.CheckYoutubeUpdates | bot/monitor.py:53-95 | no client, a failed request or no items gives None; otherwise an update exactly when the latest id differs from the stored marker (and a thumbnail exists), with type video, watch URL, title, thumbnail and that id |
| Monitor.YoutubeQuietAfterMarker | bot/monitor.py:74 | once the announced id is stored, the same response announces nothing |
| Monitor.TwitchThumbnailFilled | bot/monitor.py:130 | `{width}` becomes 320 and `{height}` becomes 180; the rest of the template is kept |
| Monitor.DecideTwitch | bot/monitor.py:119-136 | an update iff live, the first record has `id`, `title` and `thumbnail_url`, and (not live before, or a different stream id); going off air or a missing key (the `KeyError` caught at the end) gives none; the update has the title, the Twitch URL, the filled thumbnail and the first stream's id |
| Monitor.TwitchQuietAfterMarker | bot/monitor.py:123 | once the stream id is stored and the channel marked live, the same streams announce nothing |
| Monitor.ClassifyChannelInput | bot/monitor.py:141-186 | in the source's order: a `UC` id of length 24 is returned as is; a YouTube URL with `/channel/` gives the segment after it; else with `/user/` a username lookup of the segment after it; else with `/@` a handle lookup of the segment after it; a bare `@handle` a handle lookup of the text up to the first `/` after the `@`s; anything else a username lookup with the leading `@`s stripped |
| Monitor.ChannelSegment | bot/monitor.py:149 | that segment starts right after the last `/channel/` and runs up to the next `/` or the end |
| Monitor.ExtractYoutubeChannelId | bot/monitor.py:138-198 | direct ids are answered without a lookup; a username goes to the `forUsername` lookup and a handle to the `forHandle` lookup, whose answer is the result |
| Monitor.DirectIdsNeedNoLookup | bot/monitor.py:142-149 | for ids and `/channel/` URLs the result does not depend on the lookups |
| Monitor.ChannelMonitor.constructor | bot/monitor.py:14-19 | a YouTube client iff an API key is set; an unauthenticated Twitch client iff both credentials are set |
| Monitor.ChannelMonitor.Initialize | bot/monitor.py:21-30 | an existing client is authenticated, or dropped when that fails; no client stays none |
| Monitor.ChannelMonitor.EnsureTwitchAuthenticated | bot/monitor.py:32-51 | false and unchanged without credentials; true and unchanged with a client; otherwise a rebuild that stays none when authentication fails |
| Monitor.ChannelMonitor.CheckTwitchUpdates | bot/monitor.py:97-136 | None without an authenticated client; otherwise the decision on the first fetch, or on the retry when the first fetch raised, so None also for a first record missing a key the announcement reads |
| Scheduler.OnPlatformMembers | bot/scheduler.py:49 | the comprehension keeps exactly the profile's channels of the loop's platform |
| Scheduler.CutAtSend | bot/scheduler.py:46-69 | an aborted tick's effects are a prefix of the full tick's |
| Scheduler.TickEffects | bot/scheduler.py:36-69 | nothing when not ready, without a notification channel, or when the profile read fails; otherwise a prefix of the two loops' effects |
| Scheduler.AbortPoint | bot/scheduler.py:46-69 | when a given send raises, the tick keeps exactly the effects of the profiles and channels before it |
| Scheduler.ChannelEffectsPaired | bot/scheduler.py:50-67 | within a profile, every message is followed by its marker write |
| Scheduler.ProfileEffectsPaired | bot/scheduler.py:48-67 | across profiles, messages and marker writes alternate, starting with a message |
| Scheduler.CutPaired | bot/scheduler.py:46-69 | an abort never separates a delivered message from its marker write |
| Scheduler.TickPaired | bot/scheduler.py:36-69 | whatever send fails, every message sent in a tick is followed by its marker write |
| Scheduler.ChannelWritesJustified | bot/scheduler.py:50-67 | each marker write of a profile's loop names a checked channel of that profile, and the marker of its update |
| Scheduler.WritesJustified | bot/scheduler.py:48-67 | every marker write names a profile's channel of the loop's platform whose check returned an update with that marker |
| Scheduler.QuietTick | bot/scheduler.py:52 | when no channel of the platform has an update, the tick sends and writes nothing |
| Scheduler.QuietChannels | bot/scheduler.py:50-52 | channels without updates cause neither a send nor a write |
| Scheduler.MonitorScheduler.constructor | bot/scheduler.py:14-18 | a fresh monitor and no tasks |
| Scheduler.MonitorScheduler.Start | bot/scheduler.py:20-25 | initialises the monitor's Twitch client, then both tasks run |
| Scheduler.MonitorScheduler.Stop | bot/scheduler.py:27-33 | cancels each task that was started; a missing task stays missing |
| Scheduler.MonitorScheduler.Tick | bot/scheduler.py:36-69 | the effects of one tick of either loop (`check_twitch_updates` at lines 72-105 is the same shape) equal `TickEffects` |
| Scheduler.MonitorScheduler.NotifyChannels | bot/scheduler.py:50-67 | the inner loop yields the channel effects, or stops at the channel whose send raises |
| Ranking.PlayingNames | bot/commands_ranking.py:19-24 | the names of exactly the activities of type playing |
| Ranking.CallsFor | bot/commands_ranking.py:33-40 | one call per name of the set, each of the right kind, every name covered |
| Ranking.OnPresenceUpdate | bot/commands_ranking.py:13-40 | nothing when either snapshot is a bot; otherwise one start per started name under the display name, one end per stopped name, and starts before ends |
| Ranking.Rank | bot/commands_ranking.py:51-79 | the usage text without a category; each known lower-cased category runs its query; `global` without a target gets the error; anything else gets the invalid-category text (each case an iff) |
| Ranking.RankIgnoresCase | bot/commands_ranking.py:61 | categories equal up to ASCII case dispatch alike |
| Text.Lower | bot/commands_ranking.py:61 | each character lower-cased, length kept |
| ActivityTracker.PlayingKeysFacts | bot/cogs_activity.py:34-43 | the dict keys are the playing names, each once even when names repeat |
| ActivityTracker.MissingMembers | bot/cogs_activity.py:46-55 | the names scanned by a loop's test are exactly the keys of one dict absent from the other |
| ActivityTracker.MissingDistinct | bot/cogs_activity.py:46-55 | distinct keys give distinct names, so no call is repeated |
| ActivityTracker.PresenceStarts | bot/cogs_activity.py:46-49 | a start under the member's id and name is issued iff the name is played after but not before |
| ActivityTracker.PresenceEnds | bot/cogs_activity.py:52-55 | an end is issued iff the name was played before but not after |
| ActivityTracker.PresenceCalls | bot/cogs_activity.py:34-55 | the calls of the cog's listener for a non-bot member; `PresenceStarts`, `PresenceEnds` and `PresenceCallsDistinct` state which calls they are |
| ActivityTracker.PresenceCallsDistinct | bot/cogs_activity.py:34-55 | every call is for the member after the update, and none is repeated |
| ActivityTracker.OnPresenceUpdate | bot/cogs_activity.py:17-55 | nothing only when the member after the update is a bot; otherwise the starts then the ends, in dict order |
| ActivityTracker.StartLoop | bot/cogs_activity.py:46-49 | the first loop issues a start for each key of `after` missing from `before`, in order |
| ActivityTracker.EndLoop | bot/cogs_activity.py:52-55 | the second loop issues an end for each key of `before` missing from `after`, in order |
| ActivityTracker.PartitionSizes | bot/cogs_activity.py:89 | the stored records plus the bot count equal the number of members iterated |
| ActivityTracker.NonBotDataExact | bot/cogs_activity.py:97-104 | the records are exactly those of the non-bot members |
| ActivityTracker.PartitionMembers | bot/cogs_activity.py:96-106 | the loop yields the non-bot records in order and the bot count |
| ActivityTracker.SyncMembersTask | bot/cogs_activity.py:57-118 | nothing before the bot is ready; otherwise one sync per guild with non-bot members, in guild order, skipping a guild whose fetch raised |
| ActivityTracker.SyncCallsNonEmpty | bot/cogs_activity.py:108-113 | no sync call has an empty member list |
| ActivityTracker.FetchOnlyForSmallCache | bot/cogs_activity.py:77-95 | when every cache holds more than one member, the API results make no difference |
| YoutubeUrls.CleanYoutubeUrl | bot/utils.py:9-25 | `clean_youtube_url` (the same code is at main.py:56-78); what it yields is stated by `CleanedShape`, `ResplitCleaned` and `CleanIdempotent` |
| YoutubeUrls.IsYoutubeUrl | bot/utils.py:27-33 | `is_youtube_url`; `IsYoutubeUrlMatchesPattern` states the language it accepts |
| YoutubeUrls.CleanedShape | bot/utils.py:9-25 | the base (scheme, host, path) is unchanged and there is no fragment; the query holds only the `v` values when any exist, else only the `list` values, else nothing |
| YoutubeUrls.EssentialParses | bot/utils.py:14-22 | the kept query parses back to exactly the kept pairs |
| YoutubeUrls.ResplitCleaned | bot/utils.py:23-25 | re-parsing a cleaned URL finds the same base and query and no fragment |
| YoutubeUrls.CleanIdempotent | main.py:56-78 | cleaning an already-cleaned URL returns it unchanged |
| YoutubeUrls.IsYoutubeUrlMatchesPattern | bot/utils.py:27-33 | the check holds iff the URL is an optional `http(s)://`, an optional `www.`, one of the three hosts, `/`, and the `.+$` tail |
| YoutubeUrls.BareHostRejected | main.py:83 | a bare host, with or without the trailing slash, is rejected |
| Playback.FirstPreset | main.py:265-275 | always a preset name, and either the default or one of the arguments |
| Playback.FirstPresetIsFirst | main.py:272-275 | the first argument naming a preset, or the default when none does |
| Playback.ChoosePreset | main.py:272-275 | the loop with `break` yields `FirstPreset` |
| Playback.WithoutAutoplay | main.py:268 | exactly the arguments other than `autoplay` |
| Playback.PresetIgnoresAutoplay | main.py:266-275 | removing the `autoplay` tokens never changes the preset |
| Playback.PlaylistItems | main.py:295-297 | one entry per URL, in order, all with the preset |
| Playback.FirstRelated | main.py:131-135 | None iff no related video has a YouTube URL; otherwise a YouTube URL |
| Playback.FirstRelatedIsFirst | main.py:132-135 | the URL taken is that of the first playable video |
| Playback.FindRelated | bot/commands_music.py:20-24 | the loop with `break` yields `FirstRelated` |
| Playback.PlaybackState.constructor | bot/commands_utils.py:12-14 | the three dicts start empty |
| Playback.PlaybackState.TakeNext | main.py:124-157 | a non-empty queue pops its front; an empty one with autoplay and a related URL yields that URL with the default preset; otherwise stop with the queue unchanged; a missing queue cannot occur in a valid state |
| Playback.PlaybackState.PlayNext | bot/commands_music.py:13-58 | the outcome, the guild's queue and its last played info are those of `NextTrackRun` on the old state; other guilds unchanged; a started track is one that streamed and played, and its info is stored |
| Playback.NextTrackRun | main.py:124-173 | the run of the next-track rule with its retries: each pass stops, fails on a missing queue, or takes an entry; an entry that streams becomes the last played; one that does not start playing leads to the next pass |
| Playback.FirstStarting | main.py:157-173 | the first entry that streams and plays, None iff no entry does |
| Playback.LastStreamedIsLast | main.py:160-161 | the last played info after trying entries is that of the last one that streamed, or the old one when none did |
| Playback.RunWithoutAutoplay | main.py:124-173 | with autoplay off and enough fuel: the first entry that starts is played and every entry before it is dropped; with none, a disconnect with the queue empty; the last played info is that of the last entry that streamed |
| Playback.RunWithoutAutoplaySuffix | main.py:157 | with autoplay off a run only takes entries off the front of the queue |
| Playback.RunPlaying | main.py:160-165 | a run that ends playing ends on an entry that streamed and played, and that entry's info is the last played |
| Playback.RunNeverCrashes | main.py:140 | when every guild with autoplay on has a queue, the `play_queue[guild_id]` lookup never fails |
| Playback.PlaybackState.Pass | main.py:126-173 | one pass is one unfolding of `NextTrackRun`; other guilds are unchanged |
| Playback.PlaybackState.Leave | main.py:333-345 | with a voice client the guild's queue is emptied and its key kept; otherwise nothing changes |
| Playback.PlaybackState.OnVoiceStateUpdate | main.py:204-214 | when the bot leaves voice, the guild's queue, info and flag are removed and every other guild is unchanged |
| Playback.PlaybackState.Enqueue | main.py:296-297 | the queue grows by the entries, in order |
| Playback.PlaybackState.Play | main.py:231-316 | the reply, the start decision, the queues and the flags are exactly `MainPlay` of the old state |
| Playback.PlaybackState.VetAndQueue | main.py:277-307 | after connecting, the result is exactly `QueueUrl` of the old state |
| Playback.PlaybackState.PlayCog | bot/commands_music.py:65-139 | the result is exactly `CogPlay` of the old state; the profile store is written only once connected with a URL, as `Recorded` says |
| Playback.PlaybackState.PlayCogConnected | bot/commands_music.py:98-135 | the autoplay flag is turned on if asked, then `QueueUrl` with the default preset, and the store is `Recorded` |
| Playback.PlaybackState.VetQueueAndRecord | bot/commands_music.py:103-135 | the URL check, then queue and record as `QueueUrl` and `Recorded` |
| Playback.PlaybackState.QueueAndRecord | bot/commands_music.py:113-130 | queues the entries with the default preset, creates the author's profile, and records a single video in the history |
| Playback.WithQueue | main.py:243-244 | the guild has a queue afterwards; an existing one is kept |
| Playback.QueueUrl | main.py:277-304 | both `!play` commands from the URL check on; `MainPlayQueues`, `MainPlayCounts` and `CogPlayQueues` state what it queues and replies |
| Playback.MainPlay | main.py:231-316 | main.py's `!play` on the old state; its properties are the `MainPlay...` lemmas below, and `Play` is proved equal to it |
| Playback.CogPlay | bot/commands_music.py:65-139 | the music cog's `!play` on the old state; its properties are the `CogPlay...` lemmas below, and `PlayCog` is proved equal to it |
| Playback.MainPlayKeepsValid | main.py:242-270 | every flagged guild still has a queue |
| Playback.MainPlayOtherGuilds | main.py:231-316 | other guilds' queues are untouched |
| Playback.MainPlayAutoplayFlag | main.py:266-270 | once connected, the flag is set to whether `autoplay` was given (true or false); before that it is untouched; past the voice check the guild has a queue |
| Playback.MainPlayQueues | main.py:292-304 | the queue grows by the playlist URLs in order, or by the cleaned video URL, with the first preset given, exactly when connected and the URL passes; otherwise it is unchanged |
| Playback.MainPlayCounts | main.py:292-307 | the reply counts the entries added, and playback starts iff something was queued onto an idle player |
| Playback.MainPlayReplies | main.py:233-316 | the reply names the first failed check (channel, voice, connection, URL, extraction), each an iff; never the missing-URL reply |
| Playback.CogPlayKeepsValid | bot/commands_music.py:84-101 | every flagged guild still has a queue |
| Playback.CogPlayAutoplayFlags | bot/commands_music.py:99-101 | never turns autoplay off; turns it on only for this guild, only when asked |
| Playback.CogPlayQueues | bot/commands_music.py:113-124 | entries are queued with the default preset iff connected with a passing URL; otherwise the queue is unchanged and playback not started |
| Playback.CogPlayMissingUrl | bot/commands_music.py:75-82 | a missing or empty URL gets the usage reply right after the channel check, before the voice check |
| Playback.CogPlayRecords | bot/commands_music.py:116-130 | when something is queued the author's profile exists and a video is the last history entry (title or `Desconhecido`, cleaned URL); otherwise the store is unchanged |
| Playback.PlayedSongRecorded | bot/commands_music.py:126-130 | the recorded video ends the history and leaves the preferences unchanged |
| Playback.RecommendBasis | bot/commands_music.py:213-218 | none without a profile or preferences; otherwise min(3, n) preferences, sorted by count, drawn from the profile |
| Playback.RecommendUsesTop | bot/commands_music.py:218 | a preference left out was played no more often than any chosen one |
| Playback.RecentHistory | bot/commands_music.py:182 | the last five songs, or all of them when there are fewer, as a suffix of the history |
| Playback.RecentHistoryShowsLatest | bot/commands_music.py:182 | the song just recorded is the last one shown |

## Left out

- Discord I/O: messages, embeds, reply wording, typing indicators, voice connect/disconnect and `vc.play`. Their outcomes are boolean inputs.
- The `vc.play(after=...)` callback runs on another thread. Each run of the next-track rule is modelled on its own; interleaving is not.
- The YouTube Data API, the Twitch API and yt_dlp are inputs or oracles. The `!recommend` search itself is not modelled, only the preferences it is built on.
- MongoDB is a map. `database.py` awaits synchronous driver calls; the model gives those calls their query semantics, not what awaiting them would do.
- `connect` and `close` are not modelled.
- Methods called on `db` that `db/database.py` does not define are uninterpreted calls or inputs: `start_activity_session`, `end_activity_session`, `get_user_top_activities`, `get_global_activity_rank`, `get_top_activities_global`, `get_top_members_by_activity_time`, `sync_member_profiles` and `initialize_collections`.
- The scheduler calls `db.get_profiles_with_monitored_channels`, which `db/database.py` does not define. It also reads `profile.monitored_channels`, which `UserProfile` does not have. The tick therefore takes the profiles and their channels as an input (`None` when the read raises).
- Floating point is left out: hour formatting in `!rank`, and `total_seconds()`.
- Models.DurationSeconds: returns whole seconds of integer timestamps, not a float.
- Timer machinery is left out (`tasks.loop` intervals, `before_loop`); one tick or one sync run is modelled.
- Configuration, logging, bootstrap, `validar_canal` and the reboot flag are left out. So are `!stop`, `!skip`, `check_bitrate`, `!help`, `!reboot`, `bot/commands_monitor.py` and `bot/commands.py`.
- Models.ChannelFromDict: a document without `platform`, `channel_id` or `channel_name` is rejected, because the model's fields are strings. The source would build a channel holding None there.
- Values of the wrong type, including an explicit null where a value is expected, are read as errors by the `from_dict` functions. Python would store them untyped.
- Models.NewMonitoredChannel: the class-definition time of the `added_at` default is a parameter.
- ProfileStore.Database.AddToMusicHistory: one `now` serves every clock reading of a call. The source reads the clock separately for the song and for each preference update.
- Preferences.AddPreference: the increment applies to the first entry matching both name and type. MongoDB's positional `$` under two separate dotted conditions may pick another entry.
- Preferences.SortByCount: it is defined as a stable sort, but no lemma states the order among equal counts.
- YoutubeUrls.CleanedShape: percent-decoding and re-encoding of query values are not modelled, and neither is the scheme lower-casing of `urlparse`.
- YoutubeUrls.CleanYoutubeUrl: the model copies the part before the query verbatim. `urllib.parse` does not: it deletes every tab, CR and LF, strips leading whitespace and C0 control characters, and writes an empty host back as `//` (`https:/watch?v=x` becomes `https:///watch?v=x`).
- YoutubeUrls.CleanYoutubeUrl: for `http`, `https` and schemeless URLs, `urlparse` splits `;params` off the last path segment, and `urlunparse` puts them back only when they are non-empty. So an empty `;` ending the path is dropped: `https://youtube.com/watch;?v=abc` becomes `https://youtube.com/watch?v=abc`. The model keeps the `;`.
- YoutubeUrls.CleanYoutubeUrl: the model matches query names and copies values as written. `parse_qs` percent-decodes both names and values, so `%76=abc` counts as a `v`. `urlencode` re-encodes the values, so `v=a/b` comes out as `v=a%2Fb`. Neither is modelled.
- YoutubeUrls.CleanYoutubeUrl: the model is total. An unbalanced `[` or `]` in the host makes `urlsplit` raise `ValueError`. Both `!play` commands call it outside their `try`, so the command then fails after the queue (and, in main.py, the autoplay flag) was already set.
- Text.Lower: only ASCII letters are lower-cased.
- Monitor.CheckYoutubeUpdates: a malformed item (missing keys) is not modelled; the request outcome is the only failure.
- Monitor.ChannelMonitor.CheckTwitchUpdates: a stream record is a dictionary only as far as its three keys go. A missing `id`, `title` or `thumbnail_url` is modelled (the `KeyError` gives no update), but values of the wrong type are not.
- Scheduler.MonitorScheduler.Tick: each channel check is a pure function, so the Twitch check's effect on the monitor's client is not threaded through a tick. Marker writes never raise, because the database methods catch everything, so only sends can abort a tick.
- Ranking.OnPresenceUpdate and ActivityTracker.OnPresenceUpdate: neither listener catches exceptions. A `start_activity_session` or `end_activity_session` call that raises ends the listener and skips the remaining calls. The model treats every call as succeeding and returns the full call list.
- ActivityTracker.SyncMembersTask: an exception raised by `sync_member_profiles` would end the whole run; the model treats that call as succeeding.
- Playback.PlaybackState.PlayNext: the retries are bounded by `fuel`. With autoplay on, a related video that keeps failing may repeat without end; that run is cut off as `GaveUp`. The run is specified by `NextTrackRun`, and its autoplay-off behaviour is proved in `RunWithoutAutoplay`.
- A playlist entry without a URL, or extraction that raises, is modelled as an extraction failure: nothing is queued or recorded.
- `main.py` and `bot/commands_utils.py` each own a set of the three dicts. Each set is one `PlaybackState`.
