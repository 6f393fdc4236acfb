/** Music playback: the per-guild queues shared by the `!play` commands of main.py and
    of the music cog (bot/commands_music.py), the next-track rule of
    `tocar_proxima_musica` (identical in both files), `!leave`, the cleanup when the
    bot leaves voice, and the selections behind `!recommend` and `!profile`.

    The three module-level dicts `play_queue`, `last_played_info` and
    `autoplay_enabled` are the fields of `PlaybackState`; main.py and
    bot/commands_utils.py each own one such set of dicts, and each is one
    `PlaybackState` here. Voice connections, yt_dlp and Discord replies are inputs. */
module Playback {
  import opened Wrappers
  import opened Models
  import opened YoutubeUrls
  import opened Preferences
  import opened ProfileStore

  /** One queue entry: the URL to stream and the equalizer preset to stream it with. */
  datatype QueueItem = QueueItem(url: string, preset: string)

  /** An entry of `related_videos`; `url` is `video.get('url')`. */
  datatype RelatedVideo = RelatedVideo(url: Option<string>)

  /** What `stream_musica` returned about the last track played; `relatedVideos` is
      None when the info has no 'related_videos' key. */
  datatype PlayedInfo = PlayedInfo(relatedVideos: Option<seq<RelatedVideo>>)

  // ---- equalizer presets and `!play` arguments --------------------------------------

  /** The keys of `EQUALIZER_PRESETS`. */
  const Presets: set<string> := {"padrao", "pop", "rock", "graves"}

  const DefaultPreset: string := "padrao"

  /** The spec of the preset loop: the first argument that names a preset, else the
      default. */
  function FirstPreset(args: seq<string>): (r: string)
    ensures r in Presets
    ensures r == DefaultPreset || r in args
  {
    if args == [] then DefaultPreset
    else if args[0] in Presets then args[0]
    else FirstPreset(args[1..])
  }

  /** The preset is the first preset-naming argument, and the default only when no
      argument names one or the first that does is "padrao" itself. */
  lemma {:induction false} FirstPresetIsFirst(args: seq<string>)
    ensures (forall a :: a in args ==> a !in Presets) ==> FirstPreset(args) == DefaultPreset
    ensures forall i :: 0 <= i < |args| && args[i] in Presets && (forall j :: 0 <= j < i ==> args[j] !in Presets) ==>
      FirstPreset(args) == args[i]
  {
    if args != [] {
      FirstPresetIsFirst(args[1..]);
      forall i | 0 <= i < |args| && args[i] in Presets && (forall j :: 0 <= j < i ==> args[j] !in Presets)
        ensures FirstPreset(args) == args[i]
      {
        if i > 0 {
          assert args[1..][i - 1] == args[i];
          assert forall j :: 0 <= j < i - 1 ==> args[1..][j] == args[j + 1];
        }
      }
      if forall a :: a in args ==> a !in Presets {
        assert forall a :: a in args[1..] ==> a in args;
      }
    }
  }

  /** `for arg_item in args: if arg_item in EQUALIZER_PRESETS: preset_name = arg_item; break`. */
  method ChoosePreset(args: seq<string>) returns (preset: string)
    ensures preset == FirstPreset(args)
  {
    preset := DefaultPreset;
    var i := 0;
    while i < |args|
      invariant 0 <= i <= |args|
      invariant FirstPreset(args) == FirstPreset(args[i..])
    {
      if args[i] in Presets {
        preset := args[i];
        return;
      }
      assert args[i..][1..] == args[i + 1..];
      i := i + 1;
    }
  }

  /** `[a for a in args if a != 'autoplay']`. */
  function WithoutAutoplay(args: seq<string>): (r: seq<string>)
    ensures forall a :: a in r <==> a in args && a != "autoplay"
    ensures |r| <= |args|
  {
    if args == [] then []
    else (if args[0] == "autoplay" then [] else [args[0]]) + WithoutAutoplay(args[1..])
  }

  /** Dropping the 'autoplay' flags never changes the preset chosen, since "autoplay"
      names no preset. */
  lemma {:induction false} PresetIgnoresAutoplay(args: seq<string>)
    ensures FirstPreset(WithoutAutoplay(args)) == FirstPreset(args)
  {
    if args != [] {
      PresetIgnoresAutoplay(args[1..]);
      if args[0] != "autoplay" {
        assert WithoutAutoplay(args) == [args[0]] + WithoutAutoplay(args[1..]);
        assert WithoutAutoplay(args)[1..] == WithoutAutoplay(args[1..]);
      } else {
        assert WithoutAutoplay(args) == WithoutAutoplay(args[1..]);
      }
    }
  }

  /** The queue entries for a playlist: each entry URL in order, all with one preset. */
  function PlaylistItems(urls: seq<string>, preset: string): (r: seq<QueueItem>)
    ensures |r| == |urls|
    ensures forall i :: 0 <= i < |r| ==> r[i] == QueueItem(urls[i], preset)
  {
    if urls == [] then []
    else PlaylistItems(urls[..|urls| - 1], preset) + [QueueItem(urls[|urls| - 1], preset)]
  }

  // ---- autoplay recommendation ------------------------------------------------------

  /** A related video the autoplay may use: it has a non-empty URL that is a YouTube
      URL. */
  predicate Playable(v: RelatedVideo) {
    v.url.Some? && v.url.value != "" && IsYoutubeUrl(v.url.value)
  }

  /** The URL of the first playable related video, if any. */
  function FirstRelated(videos: seq<RelatedVideo>): (r: Option<string>)
    ensures r.None? <==> forall v :: v in videos ==> !Playable(v)
    ensures r.Some? ==> IsYoutubeUrl(r.value)
  {
    if videos == [] then None
    else if Playable(videos[0]) then videos[0].url
    else
      assert forall v :: v in videos <==> v == videos[0] || v in videos[1..];
      FirstRelated(videos[1..])
  }

  /** The URL taken is that of the first playable video: every video before it is
      unplayable. */
  lemma {:induction false} FirstRelatedIsFirst(videos: seq<RelatedVideo>)
    ensures FirstRelated(videos).Some? ==>
      exists i :: 0 <= i < |videos| && Playable(videos[i]) && videos[i].url == FirstRelated(videos)
        && forall j :: 0 <= j < i ==> !Playable(videos[j])
  {
    if videos != [] && !Playable(videos[0]) {
      FirstRelatedIsFirst(videos[1..]);
      if FirstRelated(videos).Some? {
        var i :| 0 <= i < |videos[1..]| && Playable(videos[1..][i]) && videos[1..][i].url == FirstRelated(videos)
          && forall j :: 0 <= j < i ==> !Playable(videos[1..][j]);
        UnplayablePrefix(videos, i);
      }
    }
  }

  /** An unplayable head followed by `i` unplayable videos is `i + 1` unplayable videos. */
  lemma UnplayablePrefix(videos: seq<RelatedVideo>, i: nat)
    requires videos != [] && !Playable(videos[0]) && i < |videos| - 1
    requires forall j :: 0 <= j < i ==> !Playable(videos[1..][j])
    ensures videos[i + 1] == videos[1..][i]
    ensures forall j :: 0 <= j < i + 1 ==> !Playable(videos[j])
  {
    forall j | 0 <= j < i + 1 ensures !Playable(videos[j]) {
      if j > 0 {
        assert videos[j] == videos[1..][j - 1];
      }
    }
  }

  /** The loop over `related_videos` that stops at the first playable one. */
  method FindRelated(videos: seq<RelatedVideo>) returns (next: Option<string>)
    ensures next == FirstRelated(videos)
  {
    next := None;
    var i := 0;
    while i < |videos|
      invariant 0 <= i <= |videos|
      invariant FirstRelated(videos) == FirstRelated(videos[i..])
    {
      if Playable(videos[i]) {
        next := videos[i].url;
        return;
      }
      assert videos[i..][1..] == videos[i + 1..];
      i := i + 1;
    }
  }

  // ---- the playback state -----------------------------------------------------------

  /** What one pass of `tocar_proxima_musica` does before streaming: stop (send a
      message and disconnect), take an entry off the queue, or fail on the missing
      queue (`play_queue[guild_id]` raising KeyError). */
  datatype Step = Stop | Dequeue(item: QueueItem) | MissingQueue

  /** How a run of `tocar_proxima_musica`, with its retries after failed streams, ends;
      `GaveUp` marks a run cut short after `fuel` failed streams. */
  datatype Outcome = Playing(item: QueueItem) | Disconnected | Crashed | GaveUp

  /** `last_played_info.get(guild_id)`. */
  function LastIn(lastPlayed: map<int, PlayedInfo>, g: int): Option<PlayedInfo> {
    if g in lastPlayed then Some(lastPlayed[g]) else None
  }

  /** The URL the autoplay would queue after the track whose info is `last`: the
      first playable related video, when the info lists related videos. */
  function RelatedOf(last: Option<PlayedInfo>): Option<string> {
    if last.Some? && last.value.relatedVideos.Some? then FirstRelated(last.value.relatedVideos.value) else None
  }

  /** The decision of one pass, given the guild's queue `q`, its autoplay flag,
      whether the guild has a queue at all, and the info of the last track played. */
  function NextStep(q: seq<QueueItem>, auto: bool, hasQueue: bool, last: Option<PlayedInfo>): Step {
    if q != [] then Dequeue(q[0])
    else if !auto || RelatedOf(last).None? then Stop
    else if !hasQueue then MissingQueue
    else Dequeue(QueueItem(RelatedOf(last).value, DefaultPreset))
  }

  /** Whether an entry starts playing: `stream_musica` gives a source and `vc.play`
      does not raise. */
  predicate Starts(item: QueueItem, stream: QueueItem -> Option<PlayedInfo>, plays: QueueItem -> bool) {
    stream(item).Some? && plays(item)
  }

  /** How a run ends, and the guild's queue and last played info after it. */
  datatype RunResult = RunResult(outcome: Outcome, queue: seq<QueueItem>, last: Option<PlayedInfo>)

  /** A run of `tocar_proxima_musica` with its retries: each pass takes its step;
      an entry that streams records its info as the last played; an entry that
      does not start playing leads to the next pass. `fuel` bounds the passes. */
  function NextTrackRun(q: seq<QueueItem>, auto: bool, hasQueue: bool, last: Option<PlayedInfo>,
                        stream: QueueItem -> Option<PlayedInfo>, plays: QueueItem -> bool, fuel: nat): RunResult
    decreases fuel
  {
    if fuel == 0 then RunResult(GaveUp, q, last)
    else match NextStep(q, auto, hasQueue, last)
      case Stop => RunResult(Disconnected, q, last)
      case MissingQueue => RunResult(Crashed, q, last)
      case Dequeue(item) =>
        var rest := if q != [] then q[1..] else q;
        var last' := if stream(item).Some? then stream(item) else last;
        if Starts(item, stream, plays) then RunResult(Playing(item), rest, last')
        else NextTrackRun(rest, auto, hasQueue, last', stream, plays, fuel - 1)
  }

  /** The position of the first entry that starts playing, if any. */
  function FirstStarting(q: seq<QueueItem>, stream: QueueItem -> Option<PlayedInfo>, plays: QueueItem -> bool): (r: Option<nat>)
    ensures r.Some? ==> r.value < |q| && Starts(q[r.value], stream, plays)
    ensures r.Some? ==> forall j :: 0 <= j < r.value ==> !Starts(q[j], stream, plays)
    ensures r.None? ==> forall j :: 0 <= j < |q| ==> !Starts(q[j], stream, plays)
  {
    if q == [] then None
    else if Starts(q[0], stream, plays) then Some(0)
    else match FirstStarting(q[1..], stream, plays)
      case None => None
      case Some(k) => Some(k + 1)
  }

  /** The info left as the last played after trying `items` in order: that of the
      last entry that streamed, or `last` when none did. */
  function LastStreamed(items: seq<QueueItem>, stream: QueueItem -> Option<PlayedInfo>, last: Option<PlayedInfo>): Option<PlayedInfo> {
    if items == [] then last
    else LastStreamed(items[1..], stream, if stream(items[0]).Some? then stream(items[0]) else last)
  }

  /** Entry `k` streams and no later entry does. */
  predicate LastToStream(items: seq<QueueItem>, stream: QueueItem -> Option<PlayedInfo>, k: int) {
    0 <= k < |items| && stream(items[k]).Some? && forall j :: k < j < |items| ==> stream(items[j]).None?
  }

  lemma {:induction false} LastStreamedIsLast(items: seq<QueueItem>, stream: QueueItem -> Option<PlayedInfo>, last: Option<PlayedInfo>)
    ensures (forall j :: 0 <= j < |items| ==> stream(items[j]).None?) ==> LastStreamed(items, stream, last) == last
    ensures forall k :: LastToStream(items, stream, k) ==> LastStreamed(items, stream, last) == stream(items[k])
  {
    if items != [] {
      var last' := if stream(items[0]).Some? then stream(items[0]) else last;
      LastStreamedIsLast(items[1..], stream, last');
      assert forall j :: 0 <= j < |items[1..]| ==> items[1..][j] == items[j + 1];
      forall k | LastToStream(items, stream, k)
        ensures LastStreamed(items, stream, last) == stream(items[k])
      {
        if k > 0 {
          assert items[1..][k - 1] == items[k];
        } else {
          assert forall j :: 0 <= j < |items[1..]| ==> stream(items[1..][j]).None?;
        }
      }
    }
  }

  /** With autoplay off, a run with enough fuel plays the first entry that starts,
      dropping every entry before it; when none starts, it disconnects with the queue
      empty. The last played info is that of the last entry that streamed. */
  lemma {:induction false} RunWithoutAutoplay(q: seq<QueueItem>, hasQueue: bool, last: Option<PlayedInfo>,
    stream: QueueItem -> Option<PlayedInfo>, plays: QueueItem -> bool, fuel: nat)
    requires fuel > |q|
    ensures var r := NextTrackRun(q, false, hasQueue, last, stream, plays, fuel);
      match FirstStarting(q, stream, plays)
      case Some(k) => r == RunResult(Playing(q[k]), q[k + 1..], LastStreamed(q[..k + 1], stream, last))
      case None => r == RunResult(Disconnected, [], LastStreamed(q, stream, last))
  {
    if q != [] {
      var last' := if stream(q[0]).Some? then stream(q[0]) else last;
      if Starts(q[0], stream, plays) {
        assert q[..1][1..] == [];
      } else {
        RunWithoutAutoplay(q[1..], hasQueue, last', stream, plays, fuel - 1);
        match FirstStarting(q[1..], stream, plays)
        case Some(k) =>
          assert q[1..][k + 1..] == q[k + 2..];
          assert q[..k + 2][1..] == q[1..][..k + 1];
        case None =>
      }
    }
  }

  /** With autoplay off, whatever the fuel, a run only takes entries off the front of
      the queue. */
  lemma {:induction false} RunWithoutAutoplaySuffix(q: seq<QueueItem>, hasQueue: bool, last: Option<PlayedInfo>,
    stream: QueueItem -> Option<PlayedInfo>, plays: QueueItem -> bool, fuel: nat)
    ensures var r := NextTrackRun(q, false, hasQueue, last, stream, plays, fuel);
      |r.queue| <= |q| && r.queue == q[|q| - |r.queue|..]
  {
    if fuel > 0 && q != [] {
      var last' := if stream(q[0]).Some? then stream(q[0]) else last;
      RunWithoutAutoplaySuffix(q[1..], hasQueue, last', stream, plays, fuel - 1);
    }
  }

  /** A run that ends playing ends on an entry that streamed and played, whose info
      is the last played. */
  lemma {:induction false} RunPlaying(q: seq<QueueItem>, auto: bool, hasQueue: bool, last: Option<PlayedInfo>,
    stream: QueueItem -> Option<PlayedInfo>, plays: QueueItem -> bool, fuel: nat)
    ensures var r := NextTrackRun(q, auto, hasQueue, last, stream, plays, fuel);
      r.outcome.Playing? ==> Starts(r.outcome.item, stream, plays) && r.last == stream(r.outcome.item)
    decreases fuel
  {
    if fuel > 0 && NextStep(q, auto, hasQueue, last).Dequeue? {
      var item := NextStep(q, auto, hasQueue, last).item;
      var rest := if q != [] then q[1..] else q;
      var last' := if stream(item).Some? then stream(item) else last;
      RunPlaying(rest, auto, hasQueue, last', stream, plays, fuel - 1);
    }
  }

  /** A guild whose autoplay is on always has a queue, so the run never fails on a
      missing one. */
  lemma {:induction false} RunNeverCrashes(q: seq<QueueItem>, auto: bool, hasQueue: bool, last: Option<PlayedInfo>,
    stream: QueueItem -> Option<PlayedInfo>, plays: QueueItem -> bool, fuel: nat)
    requires auto ==> hasQueue
    ensures !NextTrackRun(q, auto, hasQueue, last, stream, plays, fuel).outcome.Crashed?
    decreases fuel
  {
    if fuel > 0 && NextStep(q, auto, hasQueue, last).Dequeue? {
      var item := NextStep(q, auto, hasQueue, last).item;
      var rest := if q != [] then q[1..] else q;
      var last' := if stream(item).Some? then stream(item) else last;
      RunNeverCrashes(rest, auto, hasQueue, last', stream, plays, fuel - 1);
    }
  }

  /** What `!play` replied. */
  datatype PlayReply =
    | WrongChannel
    | MissingUrl
    | NotInVoice
    | ConnectFailed
    | NotYoutube
    | ExtractFailed
    | AddedPlaylist(count: nat)
    | AddedSingle

  /** What yt_dlp's flat extraction returned: a playlist's entry URLs, or a single
      video and its title (None when the info has no title). */
  datatype Extracted = Playlist(urls: seq<string>) | Single(title: Option<string>)

  class PlaybackState {
    var queues: map<int, seq<QueueItem>>
    var lastPlayed: map<int, PlayedInfo>
    var autoplay: map<int, bool>

    /** Every guild with an autoplay flag has a queue: `!play` creates the queue before
        it sets the flag, and the voice cleanup removes both. */
    predicate Valid()
      reads this
    {
      autoplay.Keys <= queues.Keys
    }

    constructor()
      ensures Valid()
      ensures queues == map[] && lastPlayed == map[] && autoplay == map[]
    {
      queues, lastPlayed, autoplay := map[], map[], map[];
    }

    /** The guild's queue, empty when it has none. */
    function Queue(g: int): seq<QueueItem>
      reads this
    {
      QueueIn(queues, g)
    }

    /** `autoplay_enabled.get(guild_id, False)`. */
    function AutoplayOn(g: int): bool
      reads this
    {
      g in autoplay && autoplay[g]
    }

    /** The URL the autoplay would queue: the first playable related video of the
        last track played, when that track's info lists related videos. */
    function Related(g: int): Option<string>
      reads this
    {
      RelatedOf(LastIn(lastPlayed, g))
    }

    /** One pass of `tocar_proxima_musica` up to the stream: a non-empty queue gives up
        its front; an empty one with autoplay on appends the first playable related
        URL with the default preset and pops it straight back; otherwise the bot
        stops. With the state valid the missing-queue failure cannot happen. */
    method TakeNext(g: int) returns (step: Step)
      modifies this
      ensures lastPlayed == old(lastPlayed) && autoplay == old(autoplay)
      ensures old(Queue(g)) != [] ==>
        step == Dequeue(old(Queue(g))[0]) && queues == old(queues)[g := old(Queue(g))[1..]]
      ensures old(Queue(g)) == [] ==> queues == old(queues)
      ensures old(Queue(g)) == [] && (!old(AutoplayOn(g)) || old(Related(g)).None?) ==> step == Stop
      ensures old(Queue(g)) == [] && old(AutoplayOn(g)) && old(Related(g)).Some? ==>
        step == (if g in old(queues) then Dequeue(QueueItem(old(Related(g)).value, DefaultPreset)) else MissingQueue)
      ensures old(Valid()) ==> Valid() && !step.MissingQueue?
      ensures step == NextStep(old(Queue(g)), old(AutoplayOn(g)), g in old(queues), LastIn(old(lastPlayed), g))
    {
      if g in queues && queues[g] != [] {
        step := Dequeue(queues[g][0]);
        queues := queues[g := queues[g][1..]];
        return;
      }
      if !AutoplayOn(g) {
        return Stop;
      }
      if !(g in lastPlayed && lastPlayed[g].relatedVideos.Some?) {
        return Stop;
      }
      var next := FindRelated(lastPlayed[g].relatedVideos.value);
      if next.None? {
        return Stop;
      }
      if g !in queues {
        return MissingQueue;
      }
      // append, then popleft: the queue is empty again
      step := Dequeue(QueueItem(next.value, DefaultPreset));
    }

    /** `tocar_proxima_musica` with its retries: take the next entry; if it cannot be
        streamed, or the stream starts but `vc.play` raises, try again. The info of a
        stream that started is kept as the guild's last played info. `stream` and
        `plays` stand for `stream_musica` and `vc.play`; `fuel` bounds the retries.
        The outcome, the guild's queue and its last played info are those of
        `NextTrackRun` on the old state; with autoplay off that is the first entry that
        starts, or a disconnect with the queue empty (`RunWithoutAutoplay`). */
    method PlayNext(g: int, stream: QueueItem -> Option<PlayedInfo>, plays: QueueItem -> bool, fuel: nat)
      returns (outcome: Outcome)
      modifies this
      ensures autoplay == old(autoplay)
      ensures var r := NextTrackRun(old(Queue(g)), old(AutoplayOn(g)), g in old(queues), LastIn(old(lastPlayed), g),
                                    stream, plays, fuel);
        outcome == r.outcome && Queue(g) == r.queue && LastIn(lastPlayed, g) == r.last
      ensures queues == (if g in old(queues) then old(queues)[g := Queue(g)] else old(queues))
      ensures forall h :: h != g ==> LastIn(lastPlayed, h) == LastIn(old(lastPlayed), h)
      ensures forall h :: h != g ==> (h in queues <==> h in old(queues)) && Queue(h) == old(Queue(h))
      ensures !old(AutoplayOn(g)) && fuel > |old(Queue(g))| ==> !outcome.GaveUp?
      ensures !old(AutoplayOn(g)) ==>
        |Queue(g)| <= |old(Queue(g))| && Queue(g) == old(Queue(g))[|old(Queue(g))| - |Queue(g)|..]
      ensures outcome.Playing? ==>
        stream(outcome.item).Some? && plays(outcome.item) && g in lastPlayed && lastPlayed[g] == stream(outcome.item).value
      ensures old(Valid()) ==> Valid() && !outcome.Crashed?
    {
      ghost var q0, auto0, has0, last0 := Queue(g), AutoplayOn(g), g in queues, LastIn(lastPlayed, g);
      ghost var r0 := NextTrackRun(q0, auto0, has0, last0, stream, plays, fuel);
      ghost var valid0 := Valid();
      RunPlaying(q0, auto0, has0, last0, stream, plays, fuel);
      if !auto0 {
        RunWithoutAutoplaySuffix(q0, has0, last0, stream, plays, fuel);
        if fuel > |q0| {
          RunWithoutAutoplay(q0, has0, last0, stream, plays, fuel);
        }
      }
      if valid0 {
        RunNeverCrashes(q0, auto0, has0, last0, stream, plays, fuel);
      }
      var n := 0;
      while n < fuel
        invariant n <= fuel
        invariant autoplay == old(autoplay) && AutoplayOn(g) == auto0
        invariant (g in queues) == has0
        invariant queues == (if has0 then old(queues)[g := Queue(g)] else old(queues))
        invariant forall h :: h != g ==> LastIn(lastPlayed, h) == LastIn(old(lastPlayed), h)
        invariant NextTrackRun(Queue(g), auto0, has0, LastIn(lastPlayed, g), stream, plays, fuel - n) == r0
        invariant valid0 ==> Valid()
      {
        var ended := Pass(g, stream, plays, fuel - n);
        if ended.Some? {
          return ended.value;
        }
        n := n + 1;
      }
      return GaveUp;
    }

    /** One pass of `tocar_proxima_musica`: take the next step and, on an entry, stream
        it. It ends the run (stop, missing queue, or an entry that plays) or leaves
        the rest of the run to the next pass, as one unfolding of `NextTrackRun`. */
    method Pass(g: int, stream: QueueItem -> Option<PlayedInfo>, plays: QueueItem -> bool, left: nat)
      returns (ended: Option<Outcome>)
      requires left > 0
      modifies this
      ensures autoplay == old(autoplay)
      ensures (g in queues) == (g in old(queues))
      ensures queues == (if g in old(queues) then old(queues)[g := Queue(g)] else old(queues))
      ensures forall h :: h != g ==> LastIn(lastPlayed, h) == LastIn(old(lastPlayed), h)
      ensures NextTrackRun(old(Queue(g)), old(AutoplayOn(g)), g in old(queues), LastIn(old(lastPlayed), g), stream, plays, left)
        == if ended.Some? then RunResult(ended.value, Queue(g), LastIn(lastPlayed, g))
           else NextTrackRun(Queue(g), old(AutoplayOn(g)), g in old(queues), LastIn(lastPlayed, g), stream, plays, left - 1)
      ensures old(Valid()) ==> Valid()
    {
      ghost var last := LastIn(lastPlayed, g);
      var step := TakeNext(g);
      match step {
        case Stop =>
          return Some(Disconnected);
        case MissingQueue =>
          return Some(Crashed);
        case Dequeue(item) =>
          var info := stream(item);
          if info.Some? {
            lastPlayed := lastPlayed[g := info.value];
          }
          assert LastIn(lastPlayed, g) == if stream(item).Some? then stream(item) else last;
          if info.Some? && plays(item) {
            return Some(Playing(item));
          }
          return None;
      }
    }

    /** `leave` (main.py and the music cog alike): with a voice client, empty the
        guild's queue, keeping the key, and disconnect; without one, nothing. */
    method Leave(g: int, hasVoiceClient: bool) returns (disconnected: bool)
      modifies this
      ensures disconnected == hasVoiceClient
      ensures lastPlayed == old(lastPlayed) && autoplay == old(autoplay)
      ensures queues == (if hasVoiceClient && g in old(queues) then old(queues)[g := []] else old(queues))
      ensures queues.Keys == old(queues.Keys) && Queue(g) == (if hasVoiceClient then [] else old(Queue(g)))
      ensures old(Valid()) ==> Valid()
    {
      if !hasVoiceClient {
        return false;
      }
      if g in queues {
        queues := queues[g := []];
      }
      return true;
    }

    /** `on_voice_state_update` when the bot itself left a voice channel of guild `g`:
        the guild's queue, last played info and autoplay flag are removed and every
        other guild's entries stay. Any other voice update changes nothing. */
    method OnVoiceStateUpdate(botLeftVoice: bool, g: int)
      modifies this
      ensures botLeftVoice ==>
        queues == old(queues) - {g} && lastPlayed == old(lastPlayed) - {g} && autoplay == old(autoplay) - {g}
      ensures !botLeftVoice ==> queues == old(queues) && lastPlayed == old(lastPlayed) && autoplay == old(autoplay)
      ensures old(Valid()) ==> Valid()
    {
      if botLeftVoice {
        if g in queues {
          queues := queues - {g};
        }
        if g in lastPlayed {
          lastPlayed := lastPlayed - {g};
        }
        if g in autoplay {
          autoplay := autoplay - {g};
        }
      }
    }

    /** Appends the given entries, in order, to the guild's existing queue. */
    method Enqueue(g: int, urls: seq<string>, preset: string)
      requires g in queues
      modifies this
      ensures queues == old(queues)[g := old(queues)[g] + PlaylistItems(urls, preset)]
      ensures lastPlayed == old(lastPlayed) && autoplay == old(autoplay)
    {
      var i := 0;
      assert old(queues)[g] + PlaylistItems(urls[..0], preset) == old(queues)[g];
      while i < |urls|
        invariant 0 <= i <= |urls|
        invariant queues == old(queues)[g := old(queues)[g] + PlaylistItems(urls[..i], preset)]
        invariant lastPlayed == old(lastPlayed) && autoplay == old(autoplay)
      {
        assert urls[..i + 1][..i] == urls[..i];
        assert PlaylistItems(urls[..i + 1], preset) == PlaylistItems(urls[..i], preset) + [QueueItem(urls[i], preset)];
        assert queues[g] + [QueueItem(urls[i], preset)]
          == old(queues)[g] + (PlaylistItems(urls[..i], preset) + [QueueItem(urls[i], preset)]);
        queues := queues[g := queues[g] + [QueueItem(urls[i], preset)]];
        i := i + 1;
      }
      assert urls[..i] == urls;
    }

    /** `play` of main.py, proved against `MainPlay`. */
    method Play(g: int, url: string, args: seq<string>, channelOk: bool, inVoice: bool,
                hasVoiceClient: bool, connectOk: bool, extracted: Option<Extracted>, idle: bool)
      returns (reply: PlayReply, startNext: bool)
      modifies this
      ensures PlayEffect(reply, startNext, queues, autoplay)
        == MainPlay(old(queues), old(autoplay), g, Vet(url), args, channelOk, inVoice, hasVoiceClient, connectOk, extracted, idle)
      ensures lastPlayed == old(lastPlayed)
    {
      if !channelOk {
        return WrongChannel, false;
      }
      if !inVoice {
        return NotInVoice, false;
      }
      if g !in queues {
        queues := queues[g := []];
      }
      if !hasVoiceClient && !connectOk {
        return ConnectFailed, false;
      }
      var rest := args;
      if "autoplay" in args {
        autoplay := autoplay[g := true];
        rest := WithoutAutoplay(args);
      } else {
        autoplay := autoplay[g := false];
      }
      var preset := ChoosePreset(rest);
      PresetIgnoresAutoplay(args);
      reply, startNext := VetAndQueue(g, url, extracted, preset, idle);
    }

    /** main.py's `!play` from the URL check on, proved against `QueueUrl`. */
    method VetAndQueue(g: int, url: string, extracted: Option<Extracted>, preset: string, idle: bool)
      returns (reply: PlayReply, startNext: bool)
      requires g in queues
      modifies this
      ensures PlayEffect(reply, startNext, queues, autoplay) == QueueUrl(old(queues), old(autoplay), g, Vet(url), extracted, preset, idle)
      ensures lastPlayed == old(lastPlayed)
    {
      var cleaned := CleanYoutubeUrl(url);
      if !IsYoutubeUrl(cleaned) {
        return NotYoutube, false;
      }
      if extracted.None? {
        return ExtractFailed, false;
      }
      match extracted.value {
        case Playlist(urls) =>
          Enqueue(g, urls, preset);
        case Single(_) =>
          Enqueue(g, [cleaned], preset);
      }
      reply, startNext := Added(extracted.value), idle;
    }

    /** `play` of the music cog, proved against `CogPlay`. */
    method PlayCog(db: Database, g: int, authorId: string, authorName: string, url: Option<string>,
                   args: seq<string>, channelOk: bool, inVoice: bool, hasVoiceClient: bool, connectOk: bool,
                   extracted: Option<Extracted>, idle: bool, now: int)
      returns (reply: PlayReply, startNext: bool)
      requires db.Valid()
      modifies this, db
      ensures db.Valid()
      ensures PlayEffect(reply, startNext, queues, autoplay)
        == CogPlay(old(queues), old(autoplay), g, url, VetGiven(url), args, channelOk, inVoice, hasVoiceClient, connectOk, extracted, idle)
      ensures Connected(channelOk, inVoice, hasVoiceClient, connectOk) && url.Some? && url.value != "" ==>
        db.profiles == Recorded(old(db.profiles), authorId, authorName, Vet(url.value), extracted, now)
      ensures !(Connected(channelOk, inVoice, hasVoiceClient, connectOk) && url.Some? && url.value != "") ==>
        db.profiles == old(db.profiles)
      ensures lastPlayed == old(lastPlayed)
    {
      if !channelOk {
        return WrongChannel, false;
      }
      if url.None? || url.value == "" {
        return MissingUrl, false;
      }
      if !inVoice {
        return NotInVoice, false;
      }
      if g !in queues {
        queues := queues[g := []];
      }
      if !hasVoiceClient && !connectOk {
        return ConnectFailed, false;
      }
      reply, startNext := PlayCogConnected(db, g, authorId, authorName, url.value, args, extracted, idle, now);
    }

    /** The music cog's `!play` once connected: 'autoplay' among the arguments turns the
        guild's autoplay on. */
    method PlayCogConnected(db: Database, g: int, authorId: string, authorName: string, url: string,
                            args: seq<string>, extracted: Option<Extracted>, idle: bool, now: int)
      returns (reply: PlayReply, startNext: bool)
      requires g in queues && db.Valid()
      modifies this, db
      ensures db.Valid()
      ensures PlayEffect(reply, startNext, queues, autoplay)
        == QueueUrl(old(queues), CogFlags(old(autoplay), g, args), g, Vet(url), extracted, DefaultPreset, idle)
      ensures db.profiles == Recorded(old(db.profiles), authorId, authorName, Vet(url), extracted, now)
      ensures lastPlayed == old(lastPlayed)
    {
      if "autoplay" in args {
        autoplay := autoplay[g := true];
      }
      reply, startNext := VetQueueAndRecord(db, g, authorId, authorName, url, extracted, idle, now);
    }

    /** The music cog's `!play` from the URL check on. */
    method VetQueueAndRecord(db: Database, g: int, authorId: string, authorName: string, url: string,
                             extracted: Option<Extracted>, idle: bool, now: int)
      returns (reply: PlayReply, startNext: bool)
      requires g in queues && db.Valid()
      modifies this, db
      ensures db.Valid()
      ensures PlayEffect(reply, startNext, queues, autoplay)
        == QueueUrl(old(queues), old(autoplay), g, Vet(url), extracted, DefaultPreset, idle)
      ensures db.profiles == Recorded(old(db.profiles), authorId, authorName, Vet(url), extracted, now)
      ensures lastPlayed == old(lastPlayed)
    {
      var cleaned := CleanYoutubeUrl(url);
      if !IsYoutubeUrl(cleaned) {
        return NotYoutube, false;
      }
      if extracted.None? {
        return ExtractFailed, false;
      }
      QueueAndRecord(db, g, authorId, authorName, cleaned, extracted.value, now);
      reply, startNext := Added(extracted.value), idle;
    }

    /** The queueing step of the music cog's `!play`: a playlist creates the author's
        profile, then queues its entries; a video is queued, then the profile is
        created and the video recorded in the history under its title
        ('Desconhecido' when it has none) and cleaned URL. */
    method QueueAndRecord(db: Database, g: int, authorId: string, authorName: string, cleaned: string,
                          e: Extracted, now: int)
      requires g in queues && db.Valid()
      modifies this, db
      ensures db.Valid()
      ensures queues == old(queues)[g := old(queues)[g] + PlaylistItems(UrlsOf(cleaned, e), DefaultPreset)]
      ensures lastPlayed == old(lastPlayed) && autoplay == old(autoplay)
      ensures db.profiles == CogRecord(old(db.profiles), authorId, authorName, cleaned, e, now)
    {
      match e {
        case Playlist(urls) =>
          var _ := db.CreateUserProfile(authorId, authorName, now);
          Enqueue(g, urls, DefaultPreset);
        case Single(title) =>
          Enqueue(g, [cleaned], DefaultPreset);
          var _ := db.CreateUserProfile(authorId, authorName, now);
          var info := map["title" := title.GetOr("Desconhecido"), "url" := cleaned];
          assert SongOf(info, now) == Some(Song(title.GetOr("Desconhecido"), cleaned, now, None, None));
          var _ := db.AddToMusicHistory(authorId, info, now);
      }
    }
  }

  // ---- `!play` as functions of the state ----------------------------------------------

  /** What `!play` leaves behind: the reply, whether `tocar_proxima_musica` is then
      called (the voice client was neither playing nor paused), and the new queues
      and autoplay flags. */
  datatype PlayEffect = PlayEffect(reply: PlayReply, startNext: bool, queues: map<int, seq<QueueItem>>, autoplay: map<int, bool>)

  /** The URL check of `!play`: the cleaned URL, and whether it is a YouTube URL. */
  datatype Vetted = Vetted(cleaned: string, youtube: bool)

  function Vet(url: string): Vetted {
    var cleaned := CleanYoutubeUrl(url);
    Vetted(cleaned, IsYoutubeUrl(cleaned))
  }

  /** The music cog checks the URL only when one is given. */
  function VetGiven(url: Option<string>): Vetted {
    match url
    case None => Vetted("", false)
    case Some(u) => Vet(u)
  }

  /** Whether `!play` gets as far as queueing: the URL passed and yt_dlp extracted it. */
  predicate Enqueues(v: Vetted, extracted: Option<Extracted>) {
    v.youtube && extracted.Some?
  }

  /** Both `!play` commands from the URL check on: a URL that is not YouTube's, or one
      yt_dlp could not extract, queues nothing; otherwise a playlist's entry URLs, or
      the cleaned URL of a video, are appended to the guild's queue with the preset. */
  function QueueUrl(queues: map<int, seq<QueueItem>>, autoplay: map<int, bool>, g: int, v: Vetted,
                    extracted: Option<Extracted>, preset: string, idle: bool): PlayEffect
    requires g in queues
  {
    if !v.youtube then PlayEffect(NotYoutube, false, queues, autoplay)
    else if extracted.None? then PlayEffect(ExtractFailed, false, queues, autoplay)
    else PlayEffect(Added(extracted.value), idle,
                    queues[g := queues[g] + PlaylistItems(UrlsOf(v.cleaned, extracted.value), preset)], autoplay)
  }

  /** The guild has a queue once `!play` gets past the voice check; an existing one is
      kept. */
  function WithQueue(queues: map<int, seq<QueueItem>>, g: int): (r: map<int, seq<QueueItem>>)
    ensures g in r
  {
    if g in queues then queues else queues[g := []]
  }

  /** `play` of main.py for a URL whose check gave `v`: the channel and voice checks,
      the queue created before connecting, then 'autoplay' among the arguments turns
      the guild's autoplay on and its absence turns it off, and the preset is the
      first argument naming one. */
  function MainPlay(queues: map<int, seq<QueueItem>>, autoplay: map<int, bool>, g: int, v: Vetted,
                    args: seq<string>, channelOk: bool, inVoice: bool, hasVoiceClient: bool, connectOk: bool,
                    extracted: Option<Extracted>, idle: bool): PlayEffect
  {
    if !channelOk then PlayEffect(WrongChannel, false, queues, autoplay)
    else if !inVoice then PlayEffect(NotInVoice, false, queues, autoplay)
    else if !hasVoiceClient && !connectOk then PlayEffect(ConnectFailed, false, WithQueue(queues, g), autoplay)
    else QueueUrl(WithQueue(queues, g), autoplay[g := "autoplay" in args], g, v, extracted, FirstPreset(args), idle)
  }

  /** `play` of the music cog, `v` being the check of the URL when one is given: a
      missing or empty URL only gets the usage reply; 'autoplay' among the arguments
      turns autoplay on and nothing turns it off; the preset is always the default. */
  function CogPlay(queues: map<int, seq<QueueItem>>, autoplay: map<int, bool>, g: int, url: Option<string>,
                   v: Vetted, args: seq<string>, channelOk: bool, inVoice: bool, hasVoiceClient: bool,
                   connectOk: bool, extracted: Option<Extracted>, idle: bool): PlayEffect
  {
    if !channelOk then PlayEffect(WrongChannel, false, queues, autoplay)
    else if url.None? || url.value == "" then PlayEffect(MissingUrl, false, queues, autoplay)
    else if !inVoice then PlayEffect(NotInVoice, false, queues, autoplay)
    else if !hasVoiceClient && !connectOk then PlayEffect(ConnectFailed, false, WithQueue(queues, g), autoplay)
    else QueueUrl(WithQueue(queues, g), CogFlags(autoplay, g, args), g, v, extracted, DefaultPreset, idle)
  }

  /** The music cog turns autoplay on when asked, and never off. */
  function CogFlags(autoplay: map<int, bool>, g: int, args: seq<string>): map<int, bool> {
    if "autoplay" in args then autoplay[g := true] else autoplay
  }

  /** Whether `!play` passed the channel and voice checks and is connected. */
  predicate Connected(channelOk: bool, inVoice: bool, hasVoiceClient: bool, connectOk: bool) {
    channelOk && inVoice && (hasVoiceClient || connectOk)
  }

  /** Whether the music cog's `!play` queues something: it is connected with a given,
      non-empty URL that passed, and yt_dlp extracted it. */
  predicate CogQueues(url: Option<string>, v: Vetted, channelOk: bool, inVoice: bool, hasVoiceClient: bool,
                      connectOk: bool, extracted: Option<Extracted>) {
    Connected(channelOk, inVoice, hasVoiceClient, connectOk) && url.Some? && url.value != "" && Enqueues(v, extracted)
  }

  /** The profile store after the music cog's `!play` got connected with a URL: written
      when the URL passed and yt_dlp extracted it. */
  function Recorded(profiles: Store, authorId: string, authorName: string, v: Vetted,
                    extracted: Option<Extracted>, now: int): Store
  {
    if Enqueues(v, extracted) then CogRecord(profiles, authorId, authorName, v.cleaned, extracted.value, now)
    else profiles
  }

  /** A guild's queue in a map of queues, empty when it has none. */
  function QueueIn(queues: map<int, seq<QueueItem>>, g: int): seq<QueueItem> {
    if g in queues then queues[g] else []
  }

  /** main.py's `!play` keeps every autoplay flag on a guild with a queue. */
  lemma MainPlayKeepsValid(
      queues: map<int, seq<QueueItem>>, autoplay: map<int, bool>, g: int, v: Vetted,
      args: seq<string>, channelOk: bool, inVoice: bool, hasVoiceClient: bool, connectOk: bool,
      extracted: Option<Extracted>, idle: bool)
    requires autoplay.Keys <= queues.Keys
    ensures var e := MainPlay(queues, autoplay, g, v, args, channelOk, inVoice, hasVoiceClient, connectOk, extracted, idle);
      e.autoplay.Keys <= e.queues.Keys
  {
  }

  /** main.py's `!play` touches only guild `g`: every other guild keeps its queue, or
      its lack of one. */
  lemma MainPlayOtherGuilds(
      queues: map<int, seq<QueueItem>>, autoplay: map<int, bool>, g: int, v: Vetted,
      args: seq<string>, channelOk: bool, inVoice: bool, hasVoiceClient: bool, connectOk: bool,
      extracted: Option<Extracted>, idle: bool)
    ensures var e := MainPlay(queues, autoplay, g, v, args, channelOk, inVoice, hasVoiceClient, connectOk, extracted, idle);
      forall h :: h != g ==> (h in e.queues <==> h in queues) && QueueIn(e.queues, h) == QueueIn(queues, h)
  {
  }

  /** The autoplay flags change only when main.py's `!play` gets connected, and then
      only guild `g`'s, set to whether 'autoplay' was among the arguments; once past
      the voice check the guild has a queue. */
  lemma MainPlayAutoplayFlag(
      queues: map<int, seq<QueueItem>>, autoplay: map<int, bool>, g: int, v: Vetted,
      args: seq<string>, channelOk: bool, inVoice: bool, hasVoiceClient: bool, connectOk: bool,
      extracted: Option<Extracted>, idle: bool)
    ensures var e := MainPlay(queues, autoplay, g, v, args, channelOk, inVoice, hasVoiceClient, connectOk, extracted, idle);
      && e.autoplay == (if Connected(channelOk, inVoice, hasVoiceClient, connectOk) then autoplay[g := "autoplay" in args] else autoplay)
      && (channelOk && inVoice ==> g in e.queues)
  {
  }

  /** What main.py's `!play` queues: when connected and the URL passes, the guild's
      queue grows by the playlist's entry URLs in order (or the cleaned video URL),
      each with the first preset named among the arguments; in every other case the
      queue is as before. */
  lemma MainPlayQueues(
      queues: map<int, seq<QueueItem>>, autoplay: map<int, bool>, g: int, v: Vetted,
      args: seq<string>, channelOk: bool, inVoice: bool, hasVoiceClient: bool, connectOk: bool,
      extracted: Option<Extracted>, idle: bool)
    ensures var e := MainPlay(queues, autoplay, g, v, args, channelOk, inVoice, hasVoiceClient, connectOk, extracted, idle);
      && (Connected(channelOk, inVoice, hasVoiceClient, connectOk) && Enqueues(v, extracted) ==>
            QueueIn(e.queues, g) == QueueIn(queues, g) + PlaylistItems(UrlsOf(v.cleaned, extracted.value), FirstPreset(args)))
      && (!(Connected(channelOk, inVoice, hasVoiceClient, connectOk) && Enqueues(v, extracted)) ==>
            QueueIn(e.queues, g) == QueueIn(queues, g))
  {
  }

  /** The success reply of main.py's `!play` counts exactly the entries it added, and
      playback is started exactly when something was queued onto an idle player. */
  lemma MainPlayCounts(
      queues: map<int, seq<QueueItem>>, autoplay: map<int, bool>, g: int, v: Vetted,
      args: seq<string>, channelOk: bool, inVoice: bool, hasVoiceClient: bool, connectOk: bool,
      extracted: Option<Extracted>, idle: bool)
    ensures var e := MainPlay(queues, autoplay, g, v, args, channelOk, inVoice, hasVoiceClient, connectOk, extracted, idle);
      && (e.reply.AddedPlaylist? ==> |QueueIn(e.queues, g)| == |QueueIn(queues, g)| + e.reply.count)
      && (e.reply.AddedSingle? ==> |QueueIn(e.queues, g)| == |QueueIn(queues, g)| + 1)
      && (e.startNext <==> Connected(channelOk, inVoice, hasVoiceClient, connectOk) && Enqueues(v, extracted) && idle)
  {
  }

  /** The reply of main.py's `!play` names the first check that failed, in the order
      channel, voice, connection, URL, extraction. */
  lemma MainPlayReplies(
      queues: map<int, seq<QueueItem>>, autoplay: map<int, bool>, g: int, v: Vetted,
      args: seq<string>, channelOk: bool, inVoice: bool, hasVoiceClient: bool, connectOk: bool,
      extracted: Option<Extracted>, idle: bool)
    ensures var r := MainPlay(queues, autoplay, g, v, args, channelOk, inVoice, hasVoiceClient, connectOk, extracted, idle).reply;
      && (r == WrongChannel <==> !channelOk)
      && (r == NotInVoice <==> channelOk && !inVoice)
      && (r == ConnectFailed <==> channelOk && inVoice && !hasVoiceClient && !connectOk)
      && (r == NotYoutube <==> Connected(channelOk, inVoice, hasVoiceClient, connectOk) && !v.youtube)
      && (r == ExtractFailed <==> Connected(channelOk, inVoice, hasVoiceClient, connectOk) && v.youtube && extracted.None?)
      && r != MissingUrl
  {
  }

  /** The music cog's `!play` keeps every autoplay flag on a guild with a queue. */
  lemma CogPlayKeepsValid(
      queues: map<int, seq<QueueItem>>, autoplay: map<int, bool>, g: int, url: Option<string>, v: Vetted,
      args: seq<string>, channelOk: bool, inVoice: bool, hasVoiceClient: bool, connectOk: bool,
      extracted: Option<Extracted>, idle: bool)
    requires autoplay.Keys <= queues.Keys
    ensures var e := CogPlay(queues, autoplay, g, url, v, args, channelOk, inVoice, hasVoiceClient, connectOk, extracted, idle);
      e.autoplay.Keys <= e.queues.Keys
  {
  }

  /** The music cog's `!play` never turns autoplay off, and turns it on only for
      guild `g` and only when 'autoplay' is among the arguments. */
  lemma CogPlayAutoplayFlags(
      queues: map<int, seq<QueueItem>>, autoplay: map<int, bool>, g: int, url: Option<string>, v: Vetted,
      args: seq<string>, channelOk: bool, inVoice: bool, hasVoiceClient: bool, connectOk: bool,
      extracted: Option<Extracted>, idle: bool)
    ensures var e := CogPlay(queues, autoplay, g, url, v, args, channelOk, inVoice, hasVoiceClient, connectOk, extracted, idle);
      && (forall h :: h in autoplay && autoplay[h] ==> h in e.autoplay && e.autoplay[h])
      && (forall h :: h in e.autoplay && e.autoplay[h] && !(h in autoplay && autoplay[h]) ==> h == g && "autoplay" in args)
  {
  }

  /** What the music cog's `!play` queues: when connected with a URL that passes, the
      guild's queue grows by the entries with the default preset; otherwise the queue
      is as before and playback is not started. */
  lemma CogPlayQueues(
      queues: map<int, seq<QueueItem>>, autoplay: map<int, bool>, g: int, url: Option<string>, v: Vetted,
      args: seq<string>, channelOk: bool, inVoice: bool, hasVoiceClient: bool, connectOk: bool,
      extracted: Option<Extracted>, idle: bool)
    ensures var e := CogPlay(queues, autoplay, g, url, v, args, channelOk, inVoice, hasVoiceClient, connectOk, extracted, idle);
      && (CogQueues(url, v, channelOk, inVoice, hasVoiceClient, connectOk, extracted) ==>
            QueueIn(e.queues, g) == QueueIn(queues, g) + PlaylistItems(UrlsOf(v.cleaned, extracted.value), DefaultPreset))
      && (!CogQueues(url, v, channelOk, inVoice, hasVoiceClient, connectOk, extracted) ==>
            QueueIn(e.queues, g) == QueueIn(queues, g) && !e.startNext)
  {
  }

  /** A missing or empty URL is reported by the music cog's `!play` right after the
      channel check, before the voice check. */
  lemma CogPlayMissingUrl(
      queues: map<int, seq<QueueItem>>, autoplay: map<int, bool>, g: int, url: Option<string>, v: Vetted,
      args: seq<string>, channelOk: bool, inVoice: bool, hasVoiceClient: bool, connectOk: bool,
      extracted: Option<Extracted>, idle: bool)
    ensures var r := CogPlay(queues, autoplay, g, url, v, args, channelOk, inVoice, hasVoiceClient, connectOk, extracted, idle).reply;
      && (r == MissingUrl <==> channelOk && (url.None? || url.value == ""))
      && (r == NotInVoice <==> channelOk && url.Some? && url.value != "" && !inVoice)
  {
  }

  /** What the music cog's `!play` records once connected with a URL: when it queues,
      the author's profile exists afterwards and a video is the last song of the
      author's history; when it queues nothing, the profile store is unchanged. */
  lemma CogPlayRecords(profiles: Store, authorId: string, authorName: string, v: Vetted,
                       extracted: Option<Extracted>, now: int)
    ensures var p := Recorded(profiles, authorId, authorName, v, extracted, now);
      && (Enqueues(v, extracted) ==> authorId in p)
      && (Enqueues(v, extracted) && extracted.value.Single? ==>
            var h := p[authorId].profile.musicHistory;
            h != [] && h[|h| - 1] == Song(extracted.value.title.GetOr("Desconhecido"), v.cleaned, now, None, None))
      && (!Enqueues(v, extracted) ==> p == profiles)
  {
    if Enqueues(v, extracted) && extracted.value.Single? {
      PlayedSongRecorded(profiles, authorId, authorName, extracted.value.title.GetOr("Desconhecido"), v.cleaned, now);
    }
  }

  /** The URLs `!play` queues: a playlist's entry URLs, or the cleaned URL itself. */
  function UrlsOf(cleaned: string, e: Extracted): seq<string> {
    match e
    case Playlist(urls) => urls
    case Single(_) => [cleaned]
  }

  /** The reply once something was queued, with a playlist's entry count. */
  function Added(e: Extracted): PlayReply {
    match e
    case Playlist(urls) => AddedPlaylist(|urls|)
    case Single(_) => AddedSingle
  }

  /** What the music cog's `!play` writes to the profile store once it queues: the
      author's profile is created, and a single video is also recorded in the
      author's history. */
  function CogRecord(st: Store, authorId: string, authorName: string, cleaned: string, e: Extracted, now: int): Store {
    var created := CreateProfile(st, authorId, authorName, now);
    match e
    case Playlist(_) => created
    case Single(title) => WithSong(created, authorId, Song(title.GetOr("Desconhecido"), cleaned, now, None, None), now)
  }

  /** A video played through the music cog lands at the end of its author's history,
      with no artist or genre, so the author's preferences do not change. */
  lemma PlayedSongRecorded(st: Store, authorId: string, authorName: string, title: string, cleaned: string, now: int)
    ensures var song := Song(title, cleaned, now, None, None);
      var r := WithSong(CreateProfile(st, authorId, authorName, now), authorId, song, now);
      authorId in r && r[authorId].profile.musicHistory != []
      && r[authorId].profile.musicHistory[|r[authorId].profile.musicHistory| - 1] == song
      && r[authorId].profile.musicPreferences == CreateProfile(st, authorId, authorName, now)[authorId].profile.musicPreferences
  {
    var song := Song(title, cleaned, now, None, None);
    var s0 := CreateProfile(st, authorId, authorName, now);
    WithSongKeeps(s0, authorId, song, now);
  }

  // ---- `!recommend` and `!profile` ----------------------------------------------------

  /** The preferences `!recommend` searches for: none without a profile or without
      preferences, otherwise the three most played. */
  function RecommendBasis(profile: Option<UserProfile>): (r: Option<seq<MusicPreference>>)
    ensures r.None? <==> profile.None? || profile.value.musicPreferences == []
    ensures r.Some? ==>
      1 <= |r.value| <= 3 && SortedByCount(r.value) && multiset(r.value) <= multiset(profile.value.musicPreferences)
    ensures r.Some? ==>
      |r.value| == (if |profile.value.musicPreferences| < 3 then |profile.value.musicPreferences| else 3)
  {
    if profile.None? || profile.value.musicPreferences == [] then None
    else
      var prefs := profile.value.musicPreferences;
      var top := TopPreferences(prefs, None, 3);
      assert |top| >= 1 by {
        TopNonEmpty(prefs);
      }
      Some(top)
  }

  /** Asking for the top three of a non-empty list of preferences yields at least one. */
  lemma TopNonEmpty(prefs: seq<MusicPreference>)
    requires prefs != []
    ensures |TopPreferences(prefs, None, 3)| >= 1
  {
    var sorted := SortByCount(prefs);
    assert |sorted| == |multiset(sorted)| == |multiset(prefs)| == |prefs|;
  }

  /** The recommendation is built on the most played preferences: any preference left
      out was played no more often than any chosen one. */
  lemma RecommendUsesTop(profile: UserProfile)
    requires profile.musicPreferences != []
    ensures var r := RecommendBasis(Some(profile)).value;
      forall x, y :: x in multiset(profile.musicPreferences) - multiset(r) && y in r ==> y.count >= x.count
  {
    TopPreferencesAreTop(profile.musicPreferences, None, 3);
  }

  /** `music_history[-5:]`: the last five songs, or all of them when there are fewer. */
  function RecentHistory(h: seq<Song>): (r: seq<Song>)
    ensures |r| == if |h| < 5 then |h| else 5
    ensures h == h[..|h| - |r|] + r
  {
    if |h| <= 5 then h else h[|h| - 5..]
  }

  /** The song just recorded is the last line of the recent history. */
  lemma RecentHistoryShowsLatest(h: seq<Song>, song: Song)
    ensures var r := RecentHistory(AppendCapped(h, song)); r != [] && r[|r| - 1] == song
  {
  }
}
