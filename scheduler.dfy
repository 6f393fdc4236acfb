/** The polling scheduler (bot/scheduler.py): one tick of the YouTube or the Twitch
    loop, as the sequence of messages sent and markers written, and the start/stop
    life cycle of the two loop tasks. The per-channel checks of `ChannelMonitor` are
    an input function; a failing send is given by its position among the sends. */
module Scheduler {
  import opened Wrappers
  import opened Models
  import opened Monitor

  datatype Platform = YouTube | Twitch

  /** The `platform` value of the channels a loop handles. */
  function PlatformName(p: Platform): string {
    match p
    case YouTube => "youtube"
    case Twitch => "twitch"
  }

  /** The Discord embed posted for an update. */
  datatype Embed = Embed(title: string, description: string, url: string, color: int, image: string)

  /** What a tick does to the outside world, in order: a message to the notification
      channel, or a marker write through `update_channel_last_video` (YouTube) or
      `update_channel_stream_status` (Twitch). */
  datatype Effect =
    | Send(embed: Embed)
    | WriteMarker(platform: Platform, discordId: string, channelId: string, markerId: string)

  /** A profile as the tick reads it: its id and its monitored channels. */
  datatype Watcher = Watcher(discordId: string, channels: seq<MonitoredChannel>)

  /** The embed of an update: its title, url and thumbnail, the channel's name in the
      heading and the platform's colour. */
  function EmbedFor(p: Platform, c: MonitoredChannel, u: Update): Embed {
    match p
    case YouTube =>
      Embed("\U{1F3A5} Novo v\U{ED}deo em " + c.channelName + "!", u.title, u.url, 0xff0000, u.thumbnail)
    case Twitch =>
      Embed("\U{1F534} " + c.channelName + " est\U{E1} AO VIVO!", u.title, u.url, 0x6441a5, u.thumbnail)
  }

  /** One update: the message, then the marker write with the update's id. */
  function UpdateEffects(p: Platform, discordId: string, c: MonitoredChannel, u: Update): seq<Effect> {
    [Send(EmbedFor(p, c, u)), WriteMarker(p, discordId, c.channelId, u.markerId)]
  }

  /** The list comprehension that keeps a profile's channels of one platform. */
  function OnPlatform(chs: seq<MonitoredChannel>, p: Platform): seq<MonitoredChannel> {
    if chs == [] then []
    else (if chs[0].platform == PlatformName(p) then [chs[0]] else []) + OnPlatform(chs[1..], p)
  }

  /** The comprehension keeps exactly the channels of the platform. */
  lemma {:induction false} OnPlatformMembers(chs: seq<MonitoredChannel>, p: Platform)
    ensures forall c :: c in OnPlatform(chs, p) <==> c in chs && c.platform == PlatformName(p)
  {
    if chs != [] {
      OnPlatformMembers(chs[1..], p);
      assert forall c :: c in chs <==> c == chs[0] || c in chs[1..];
    }
  }

  function EffectsOf(p: Platform, discordId: string, c: MonitoredChannel, u: Option<Update>): seq<Effect> {
    if u.None? then [] else UpdateEffects(p, discordId, c, u.value)
  }

  /** The effects of the inner loop over one profile's channels, when nothing fails. */
  function ChannelEffects(p: Platform, discordId: string, chs: seq<MonitoredChannel>,
    check: MonitoredChannel -> Option<Update>): seq<Effect>
  {
    if chs == [] then []
    else
      var last := chs[|chs| - 1];
      ChannelEffects(p, discordId, chs[..|chs| - 1], check) + EffectsOf(p, discordId, last, check(last))
  }

  /** The effects of the outer loop over the profiles, when nothing fails. */
  function ProfileEffects(p: Platform, ws: seq<Watcher>, check: MonitoredChannel -> Option<Update>): seq<Effect> {
    if ws == [] then []
    else
      var last := ws[|ws| - 1];
      ProfileEffects(p, ws[..|ws| - 1], check)
        + ChannelEffects(p, last.discordId, OnPlatform(last.channels, p), check)
  }

  function Sends(es: seq<Effect>): nat {
    if es == [] then 0 else (if es[0].Send? then 1 else 0) + Sends(es[1..])
  }

  /** The effects that happen when send number `k` (counting from 0) raises: every
      effect before it. The exception ends the whole tick, because one `try` encloses
      both loops. */
  function CutAtSend(es: seq<Effect>, k: nat): (r: seq<Effect>)
    ensures r <= es
  {
    if es == [] then []
    else if es[0].Send? && k == 0 then []
    else [es[0]] + CutAtSend(es[1..], if es[0].Send? then k - 1 else k)
  }

  /** One tick: nothing when the bot is not ready, when the notification channel is
      missing or when reading the profiles fails; otherwise the effects of both loops,
      cut short at the send that fails, if one does. */
  function TickEffects(p: Platform, ready: bool, destination: bool, profiles: Option<seq<Watcher>>,
    check: MonitoredChannel -> Option<Update>, failAt: Option<nat>): (r: seq<Effect>)
    ensures !ready || !destination || profiles.None? ==> r == []
    ensures ready && destination && profiles.Some? ==> r <= ProfileEffects(p, profiles.value, check)
  {
    if !ready || !destination || profiles.None? then []
    else
      var all := ProfileEffects(p, profiles.value, check);
      if failAt.None? then all else CutAtSend(all, failAt.value)
  }

  // ---- properties of the effect sequences ----------------------------------------

  lemma {:induction false} SendsAppend(a: seq<Effect>, b: seq<Effect>)
    ensures Sends(a + b) == Sends(a) + Sends(b)
  {
    if a != [] {
      assert (a + b)[0] == a[0];
      assert (a + b)[1..] == a[1..] + b;
      SendsAppend(a[1..], b);
    } else {
      assert a + b == b;
    }
  }

  /** Cutting after a prefix that holds no more than `k` sends keeps that prefix. */
  lemma {:induction false} CutAppend(a: seq<Effect>, b: seq<Effect>, k: nat)
    requires Sends(a) <= k
    ensures CutAtSend(a + b, k) == a + CutAtSend(b, k - Sends(a))
  {
    if a != [] {
      var k' := if a[0].Send? then k - 1 else k;
      assert Sends(a) == (if a[0].Send? then 1 else 0) + Sends(a[1..]);
      assert (a + b)[1..] == a[1..] + b;
      assert (a + b)[0] == a[0];
      assert CutAtSend(a + b, k) == [a[0]] + CutAtSend(a[1..] + b, k');
      CutAppend(a[1..], b, k');
      assert [a[0]] + (a[1..] + CutAtSend(b, k - Sends(a))) == a + CutAtSend(b, k - Sends(a));
    } else {
      assert a + b == b;
    }
  }

  /** With no more than `k` sends in all, nothing is cut. */
  lemma CutBeyond(es: seq<Effect>, k: nat)
    requires Sends(es) <= k
    ensures CutAtSend(es, k) == es
  {
    CutAppend(es, [], k);
    assert es + [] == es;
  }

  lemma {:induction false} ChannelEffectsAppend(p: Platform, id: string, a: seq<MonitoredChannel>,
    b: seq<MonitoredChannel>, check: MonitoredChannel -> Option<Update>)
    ensures ChannelEffects(p, id, a + b, check) == ChannelEffects(p, id, a, check) + ChannelEffects(p, id, b, check)
  {
    if b != [] {
      var last := b[|b| - 1];
      assert (a + b)[..|a + b| - 1] == a + b[..|b| - 1];
      ChannelEffectsAppend(p, id, a, b[..|b| - 1], check);
    } else {
      assert a + b == a;
    }
  }

  lemma {:induction false} ProfileEffectsAppend(p: Platform, a: seq<Watcher>, b: seq<Watcher>,
    check: MonitoredChannel -> Option<Update>)
    ensures ProfileEffects(p, a + b, check) == ProfileEffects(p, a, check) + ProfileEffects(p, b, check)
  {
    if b != [] {
      assert (a + b)[..|a + b| - 1] == a + b[..|b| - 1];
      ProfileEffectsAppend(p, a, b[..|b| - 1], check);
    } else {
      assert a + b == a;
    }
  }

  lemma ProfileEffectsOne(p: Platform, w: Watcher, check: MonitoredChannel -> Option<Update>)
    ensures ProfileEffects(p, [w], check) == ChannelEffects(p, w.discordId, OnPlatform(w.channels, p), check)
  {
    assert [w][..0] == [];
  }

  lemma ChannelEffectsOne(p: Platform, id: string, c: MonitoredChannel, check: MonitoredChannel -> Option<Update>)
    ensures ChannelEffects(p, id, [c], check) == EffectsOf(p, id, c, check(c))
  {
    assert [c][..0] == [];
  }

  /** The outer loop's effects split around profile `i`. */
  lemma ProfileSplit(p: Platform, ws: seq<Watcher>, i: nat, check: MonitoredChannel -> Option<Update>)
    requires i < |ws|
    ensures ProfileEffects(p, ws, check)
      == ProfileEffects(p, ws[..i], check)
         + (ChannelEffects(p, ws[i].discordId, OnPlatform(ws[i].channels, p), check) + ProfileEffects(p, ws[i + 1..], check))
  {
    var a, one, b := ws[..i], [ws[i]], ws[i + 1..];
    assert ws == a + (one + b);
    ProfileEffectsAppend(p, a, one + b, check);
    ProfileEffectsAppend(p, one, b, check);
    ProfileEffectsOne(p, ws[i], check);
  }

  /** The inner loop's effects split around channel `j`, which has an update. */
  lemma ChannelSplit(p: Platform, id: string, chs: seq<MonitoredChannel>, j: nat, check: MonitoredChannel -> Option<Update>)
    requires j < |chs| && check(chs[j]).Some?
    ensures ChannelEffects(p, id, chs, check)
      == ChannelEffects(p, id, chs[..j], check)
         + ([Send(EmbedFor(p, chs[j], check(chs[j]).value))]
            + ([WriteMarker(p, id, chs[j].channelId, check(chs[j]).value.markerId)] + ChannelEffects(p, id, chs[j + 1..], check)))
  {
    var a, one, b := chs[..j], [chs[j]], chs[j + 1..];
    assert chs == a + (one + b);
    ChannelEffectsAppend(p, id, a, one + b, check);
    ChannelEffectsAppend(p, id, one, b, check);
    ChannelEffectsOne(p, id, chs[j], check);
  }

  /** Regrouping effect sequences, kept as a lemma so that the caller's proof sees
      only the one equation it needs. */
  lemma Regroup(a: seq<Effect>, b: seq<Effect>, x: Effect, c: seq<Effect>, d: seq<Effect>)
    ensures a + ((b + ([x] + c)) + d) == (a + b) + ([x] + (c + d))
  {
  }

  /** Cutting at send `k` right where send `k` stands keeps what comes before it. */
  lemma CutHere(a: seq<Effect>, x: Effect, rest: seq<Effect>, k: nat)
    requires Sends(a) == k && x.Send?
    ensures CutAtSend(a + ([x] + rest), k) == a
  {
    CutAppend(a, [x] + rest, k);
    assert ([x] + rest)[0] == x;
    assert a + [] == a;
  }

  /** When send number `k` is the one for channel `j` of profile `i`, the tick's
      effects are exactly those of the profiles and channels before it. */
  lemma AbortPoint(p: Platform, ws: seq<Watcher>, check: MonitoredChannel -> Option<Update>,
    i: nat, j: nat, k: nat)
    requires i < |ws| && j < |OnPlatform(ws[i].channels, p)|
    requires check(OnPlatform(ws[i].channels, p)[j]).Some?
    requires Sends(ProfileEffects(p, ws[..i], check)
      + ChannelEffects(p, ws[i].discordId, OnPlatform(ws[i].channels, p)[..j], check)) == k
    ensures CutAtSend(ProfileEffects(p, ws, check), k)
      == ProfileEffects(p, ws[..i], check)
         + ChannelEffects(p, ws[i].discordId, OnPlatform(ws[i].channels, p)[..j], check)
  {
    var chs := OnPlatform(ws[i].channels, p);
    var id := ws[i].discordId;
    var u := check(chs[j]).value;
    var before := ProfileEffects(p, ws[..i], check);
    var done := ChannelEffects(p, id, chs[..j], check);
    var x := Send(EmbedFor(p, chs[j], u));
    var tail := [WriteMarker(p, id, chs[j].channelId, u.markerId)] + ChannelEffects(p, id, chs[j + 1..], check);
    var rest := ProfileEffects(p, ws[i + 1..], check);
    ProfileSplit(p, ws, i, check);
    ChannelSplit(p, id, chs, j, check);
    Regroup(before, done, x, tail, rest);
    CutHere(before + done, x, tail + rest, k);
  }

  /** One more channel of the inner loop. */
  lemma ChannelStep(p: Platform, id: string, chs: seq<MonitoredChannel>, j: nat, check: MonitoredChannel -> Option<Update>)
    requires j < |chs|
    ensures ChannelEffects(p, id, chs[..j + 1], check)
      == ChannelEffects(p, id, chs[..j], check) + EffectsOf(p, id, chs[j], check(chs[j]))
    ensures Sends(EffectsOf(p, id, chs[j], check(chs[j]))) == if check(chs[j]).Some? then 1 else 0
  {
    assert chs[..j + 1][..j] == chs[..j];
    var es := EffectsOf(p, id, chs[j], check(chs[j]));
    if es != [] {
      assert es[0].Send? && es[1..][0].WriteMarker?;
      assert es[1..][1..] == [];
      assert Sends(es[1..]) == 0;
    }
  }

  /** One more profile of the outer loop. */
  lemma ProfileStep(p: Platform, ws: seq<Watcher>, i: nat, check: MonitoredChannel -> Option<Update>)
    requires i < |ws|
    ensures ProfileEffects(p, ws[..i + 1], check)
      == ProfileEffects(p, ws[..i], check) + ChannelEffects(p, ws[i].discordId, OnPlatform(ws[i].channels, p), check)
  {
    assert ws[..i + 1][..i] == ws[..i];
  }

  /** Messages and marker writes alternate, starting with a message: a Send at each
      even position, a WriteMarker at each odd one, and an even number of effects.
      That each write belongs to the message before it (same channel, same update)
      comes from `ChannelEffects`, as `ChannelSplit` shows. */
  predicate Paired(es: seq<Effect>) {
    |es| % 2 == 0 && forall i :: 0 <= i < |es| ==> (es[i].Send? <==> i % 2 == 0)
  }

  lemma PairedAppend(a: seq<Effect>, b: seq<Effect>)
    requires Paired(a) && Paired(b)
    ensures Paired(a + b)
  {
    forall i | 0 <= i < |a + b|
      ensures (a + b)[i].Send? <==> i % 2 == 0
    {
      if i < |a| {
        assert (a + b)[i] == a[i];
      } else {
        var j := i - |a|;
        assert (a + b)[i] == b[j];
        EvenShift(j, |a|);
      }
    }
  }

  lemma EvenShift(j: nat, n: nat)
    requires n % 2 == 0
    ensures (j + n) % 2 == j % 2
  {
    var m := n / 2;
    assert n == m + m;
  }

  lemma {:induction false} ChannelEffectsPaired(p: Platform, id: string, chs: seq<MonitoredChannel>,
    check: MonitoredChannel -> Option<Update>)
    ensures Paired(ChannelEffects(p, id, chs, check))
  {
    if chs != [] {
      var last := chs[|chs| - 1];
      ChannelEffectsPaired(p, id, chs[..|chs| - 1], check);
      PairedAppend(ChannelEffects(p, id, chs[..|chs| - 1], check), EffectsOf(p, id, last, check(last)));
    }
  }

  /** In a tick that runs to the end, sends and marker writes alternate, starting
      with a send. */
  lemma {:induction false} ProfileEffectsPaired(p: Platform, ws: seq<Watcher>, check: MonitoredChannel -> Option<Update>)
    ensures Paired(ProfileEffects(p, ws, check))
  {
    if ws != [] {
      var last := ws[|ws| - 1];
      ProfileEffectsPaired(p, ws[..|ws| - 1], check);
      ChannelEffectsPaired(p, last.discordId, OnPlatform(last.channels, p), check);
      PairedAppend(ProfileEffects(p, ws[..|ws| - 1], check),
        ChannelEffects(p, last.discordId, OnPlatform(last.channels, p), check));
    }
  }

  /** The cut falls on a send, so an aborted tick never leaves a delivered message
      without its marker write. */
  lemma {:induction false} CutPaired(es: seq<Effect>, k: nat)
    requires Paired(es)
    ensures Paired(CutAtSend(es, k))
    decreases |es|
  {
    if es != [] && k > 0 {
      assert es[0].Send? && !es[1].Send?;
      var rest := es[2..];
      assert Paired(rest) by {
        forall i | 0 <= i < |rest| ensures rest[i].Send? <==> i % 2 == 0 {
          assert rest[i] == es[i + 2];
        }
      }
      CutPaired(rest, k - 1);
      assert es[1..][0] == es[1] && es[1..][1..] == rest;
      assert CutAtSend(es, k) == [es[0], es[1]] + CutAtSend(rest, k - 1);
      PairedAppend([es[0], es[1]], CutAtSend(rest, k - 1));
    }
  }

  /** Whatever the failure, a tick's effects pair each message with its marker write. */
  lemma TickPaired(p: Platform, ready: bool, destination: bool, profiles: Option<seq<Watcher>>,
    check: MonitoredChannel -> Option<Update>, failAt: Option<nat>)
    ensures Paired(TickEffects(p, ready, destination, profiles, check, failAt))
  {
    if ready && destination && profiles.Some? {
      ProfileEffectsPaired(p, profiles.value, check);
      if failAt.Some? {
        CutPaired(ProfileEffects(p, profiles.value, check), failAt.value);
      }
    }
  }

  /** A marker write comes from a checked channel of the loop's platform, in that
      profile, whose check returned an update with that marker. */
  ghost predicate Justified(e: Effect, p: Platform, ws: seq<Watcher>, check: MonitoredChannel -> Option<Update>)
    requires e.WriteMarker?
  {
    e.platform == p
    && exists w, c ::
      && w in ws && c in w.channels
      && w.discordId == e.discordId && c.platform == PlatformName(p) && c.channelId == e.channelId
      && check(c).Some? && check(c).value.markerId == e.markerId
  }

  lemma {:induction false} ChannelWritesJustified(p: Platform, w: Watcher, chs: seq<MonitoredChannel>,
    ws: seq<Watcher>, check: MonitoredChannel -> Option<Update>)
    requires w in ws
    requires forall c :: c in chs ==> c in w.channels && c.platform == PlatformName(p)
    ensures forall e :: e in ChannelEffects(p, w.discordId, chs, check) && e.WriteMarker? ==> Justified(e, p, ws, check)
  {
    if chs != [] {
      var last := chs[|chs| - 1];
      ChannelWritesJustified(p, w, chs[..|chs| - 1], ws, check);
      assert last in chs;
    }
  }

  /** Only channels of the loop's platform are acted on, and only those whose check
      returned an update: every marker write names such a channel and its update's id. */
  lemma {:induction false} WritesJustified(p: Platform, ws: seq<Watcher>, all: seq<Watcher>,
    check: MonitoredChannel -> Option<Update>)
    requires forall w :: w in ws ==> w in all
    ensures forall e :: e in ProfileEffects(p, ws, check) && e.WriteMarker? ==> Justified(e, p, all, check)
  {
    if ws != [] {
      var last := ws[|ws| - 1];
      WritesJustified(p, ws[..|ws| - 1], all, check);
      OnPlatformMembers(last.channels, p);
      ChannelWritesJustified(p, last, OnPlatform(last.channels, p), all, check);
    }
  }

  /** A tick in which no channel of the platform has an update does nothing. */
  lemma {:induction false} QuietTick(p: Platform, ws: seq<Watcher>, check: MonitoredChannel -> Option<Update>)
    requires forall w, c :: w in ws && c in w.channels && c.platform == PlatformName(p) ==> check(c).None?
    ensures ProfileEffects(p, ws, check) == []
  {
    if ws != [] {
      var last := ws[|ws| - 1];
      QuietTick(p, ws[..|ws| - 1], check);
      OnPlatformMembers(last.channels, p);
      QuietChannels(p, last, OnPlatform(last.channels, p), check);
    }
  }

  lemma {:induction false} QuietChannels(p: Platform, w: Watcher, chs: seq<MonitoredChannel>,
    check: MonitoredChannel -> Option<Update>)
    requires forall c :: c in chs ==> check(c).None?
    ensures ChannelEffects(p, w.discordId, chs, check) == []
  {
    if chs != [] {
      assert chs[|chs| - 1] in chs;
      QuietChannels(p, w, chs[..|chs| - 1], check);
    }
  }

  // ---- the scheduler object ----------------------------------------------------------

  /** The handle of a loop task: never started, running, or cancelled. */
  datatype TaskState = NoTask | Running | Cancelled

  class MonitorScheduler {
    const monitor: ChannelMonitor
    var youtubeTask: TaskState
    var twitchTask: TaskState

    constructor(youtubeApiKey: bool, twitchCredentials: bool)
      ensures fresh(monitor) && youtubeTask == NoTask && twitchTask == NoTask
    {
      monitor := new ChannelMonitor(youtubeApiKey, twitchCredentials);
      youtubeTask := NoTask;
      twitchTask := NoTask;
    }

    /** `start`: initialises the monitor, then starts both loops. */
    method Start(authenticates: bool)
      modifies this, monitor
      ensures youtubeTask == Running && twitchTask == Running
      ensures old(monitor.twitch).None? ==> monitor.twitch == None
      ensures old(monitor.twitch).Some? ==>
        monitor.twitch == (if authenticates then Some(TwitchClient(true)) else None)
    {
      monitor.Initialize(authenticates);
      youtubeTask := Running;
      twitchTask := Running;
    }

    /** `stop`: cancels each task that was started and leaves a missing one missing. */
    method Stop()
      modifies this
      ensures youtubeTask == (if old(youtubeTask) == NoTask then NoTask else Cancelled)
      ensures twitchTask == (if old(twitchTask) == NoTask then NoTask else Cancelled)
    {
      if youtubeTask != NoTask {
        youtubeTask := Cancelled;
      }
      if twitchTask != NoTask {
        twitchTask := Cancelled;
      }
    }

    /** One tick of `check_youtube_updates` (p = YouTube) or `check_twitch_updates`
        (p = Twitch). `ready` is `bot.is_ready()`, `destination` whether the
        notification channel resolves, `profiles` the profile read (None when it
        raises), `check` the monitor's check per channel and `failAt` the number of the
        send that raises, if any. */
    method Tick(p: Platform, ready: bool, destination: bool, profiles: Option<seq<Watcher>>,
      check: MonitoredChannel -> Option<Update>, failAt: Option<nat>) returns (effects: seq<Effect>)
      ensures effects == TickEffects(p, ready, destination, profiles, check, failAt)
    {
      effects := [];
      if !ready {
        return;
      }
      if !destination {
        return;
      }
      if profiles.None? {
        return;
      }
      var ws := profiles.value;
      var sent := 0;
      var i := 0;
      while i < |ws|
        invariant 0 <= i <= |ws|
        invariant effects == ProfileEffects(p, ws[..i], check) && sent == Sends(effects)
        invariant failAt.Some? ==> sent <= failAt.value
      {
        var chs := OnPlatform(ws[i].channels, p);
        var es, sent', failedAt := NotifyChannels(p, ws[i].discordId, chs, check, failAt, sent);
        SendsAppend(effects, es);
        if failedAt.Some? {
          // the send raised: the exception leaves both loops
          AbortPoint(p, ws, check, i, failedAt.value, failAt.value);
          effects := effects + es;
          return;
        }
        ProfileStep(p, ws, i, check);
        effects := effects + es;
        sent := sent';
        i := i + 1;
      }
      assert ws[..i] == ws;
      if failAt.Some? {
        CutBeyond(effects, failAt.value);
      }
    }

    /** The inner loop of a tick over one profile's channels of the platform, with
        `sent` messages already sent. It stops at the send numbered `failAt`, if it
        reaches it, and then says at which channel. */
    method NotifyChannels(p: Platform, id: string, chs: seq<MonitoredChannel>,
      check: MonitoredChannel -> Option<Update>, failAt: Option<nat>, sent0: nat)
      returns (es: seq<Effect>, sent: nat, failedAt: Option<nat>)
      requires failAt.Some? ==> sent0 <= failAt.value
      ensures failedAt.None? ==>
        && es == ChannelEffects(p, id, chs, check) && sent == sent0 + Sends(es)
        && (failAt.Some? ==> sent <= failAt.value)
      ensures failedAt.Some? ==>
        && failedAt.value < |chs| && check(chs[failedAt.value]).Some?
        && es == ChannelEffects(p, id, chs[..failedAt.value], check)
        && failAt == Some(sent0 + Sends(es))
    {
      es := [];
      sent := sent0;
      var j := 0;
      while j < |chs|
        invariant 0 <= j <= |chs|
        invariant es == ChannelEffects(p, id, chs[..j], check) && sent == sent0 + Sends(es)
        invariant failAt.Some? ==> sent <= failAt.value
      {
        var update := check(chs[j]);
        ChannelStep(p, id, chs, j, check);
        if update.Some? {
          var u := update.value;
          if failAt == Some(sent) {
            return es, sent, Some(j);
          }
          ghost var step := UpdateEffects(p, id, chs[j], u);
          ghost var prev := es;
          assert EffectsOf(p, id, chs[j], update) == step;
          SendsAppend(prev, step);
          es := es + [Send(EmbedFor(p, chs[j], u))];
          sent := sent + 1;
          es := es + [WriteMarker(p, id, chs[j].channelId, u.markerId)];
          assert es == prev + step;
        } else {
          assert ChannelEffects(p, id, chs[..j + 1], check) == ChannelEffects(p, id, chs[..j], check) + [];
        }
        j := j + 1;
      }
      assert chs[..j] == chs;
      failedAt := None;
    }
  }
}
