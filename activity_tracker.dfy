/** The activity tracker cog (bot/cogs_activity.py): the presence listener that opens
    and closes sessions from the names of "playing" activities, and the periodic member
    sync that splits each guild's members into non-bots to store and bots to count. */
module ActivityTracker {
  import opened Wrappers
  import opened Discord

  // ---- on_presence_update ---------------------------------------------------------

  /** No name occurs twice. */
  predicate Distinct(s: seq<string>) {
    forall i, j :: 0 <= i < j < |s| ==> s[i] != s[j]
  }

  lemma DistinctSnoc(s: seq<string>, x: string)
    requires Distinct(s) && x !in s
    ensures Distinct(s + [x])
  {
    var r := s + [x];
    forall i, j | 0 <= i < j < |r| ensures r[i] != r[j] {
      assert r[i] == s[i];
      if j == |s| {
        assert s[i] in s;
      }
    }
  }

  lemma DistinctInit(s: seq<string>)
    requires Distinct(s) && s != []
    ensures Distinct(s[..|s| - 1]) && s[|s| - 1] !in s[..|s| - 1]
  {
    var init := s[..|s| - 1];
    forall k | 0 <= k < |init| ensures init[k] != s[|s| - 1] {
      assert init[k] == s[k];
    }
  }

  /** The keys of `{act.name: act for act in acts if act.type == playing}`, in the
      dict's order: each name once, where it first occurs. */
  function PlayingKeys(acts: seq<MemberActivity>): seq<string> {
    if acts == [] then []
    else
      var keys := PlayingKeys(acts[..|acts| - 1]);
      var a := acts[|acts| - 1];
      if a.kind == Playing && a.name !in keys then keys + [a.name] else keys
  }

  /** The dict has one key per distinct playing name and no other key. */
  lemma {:induction false} PlayingKeysFacts(acts: seq<MemberActivity>)
    ensures Distinct(PlayingKeys(acts))
    ensures forall n :: n in PlayingKeys(acts) <==> exists a :: a in acts && a.kind == Playing && a.name == n
  {
    if acts != [] {
      var a := acts[|acts| - 1];
      var keys := PlayingKeys(acts[..|acts| - 1]);
      PlayingKeysFacts(acts[..|acts| - 1]);
      assert acts == acts[..|acts| - 1] + [a];
      assert forall b :: b in acts <==> b in acts[..|acts| - 1] || b == a;
      if a.kind == Playing && a.name !in keys {
        DistinctSnoc(keys, a.name);
      }
    }
  }

  /** The names of `keys` that are not keys of `others`, in order. */
  function Missing(keys: seq<string>, others: seq<string>): seq<string> {
    if keys == [] then []
    else
      var last := keys[|keys| - 1];
      Missing(keys[..|keys| - 1], others) + (if last in others then [] else [last])
  }

  /** A name is missing exactly when it is a key and not one of `others`. */
  lemma {:induction false} MissingMembers(keys: seq<string>, others: seq<string>)
    ensures forall n :: n in Missing(keys, others) <==> n in keys && n !in others
  {
    if keys != [] {
      var last := keys[|keys| - 1];
      var init := keys[..|keys| - 1];
      MissingMembers(init, others);
      assert keys == init + [last];
      assert forall n :: n in keys <==> n in init || n == last;
    }
  }

  /** Distinct keys give distinct missing names. */
  lemma {:induction false} MissingDistinct(keys: seq<string>, others: seq<string>)
    requires Distinct(keys)
    ensures Distinct(Missing(keys, others))
  {
    if keys != [] {
      var last := keys[|keys| - 1];
      var init := keys[..|keys| - 1];
      DistinctInit(keys);
      MissingDistinct(init, others);
      MissingMembers(init, others);
      if last !in others {
        DistinctSnoc(Missing(init, others), last);
      }
    }
  }

  /** One start call per name, in order. */
  function StartCalls(names: seq<string>, userId: string, username: string): seq<SessionCall> {
    if names == [] then []
    else StartCalls(names[..|names| - 1], userId, username) + [StartSession(userId, username, names[|names| - 1])]
  }

  /** One end call per name, in order. */
  function EndCalls(names: seq<string>, userId: string): seq<SessionCall> {
    if names == [] then []
    else EndCalls(names[..|names| - 1], userId) + [EndSession(userId, names[|names| - 1])]
  }

  /** The k-th start call is for the k-th name. */
  lemma {:induction false} StartCallsAt(names: seq<string>, userId: string, username: string)
    ensures |StartCalls(names, userId, username)| == |names|
    ensures forall k :: 0 <= k < |names| ==> StartCalls(names, userId, username)[k] == StartSession(userId, username, names[k])
  {
    if names != [] {
      StartCallsAt(names[..|names| - 1], userId, username);
    }
  }

  /** The k-th end call is for the k-th name. */
  lemma {:induction false} EndCallsAt(names: seq<string>, userId: string)
    ensures |EndCalls(names, userId)| == |names|
    ensures forall k :: 0 <= k < |names| ==> EndCalls(names, userId)[k] == EndSession(userId, names[k])
  {
    if names != [] {
      EndCallsAt(names[..|names| - 1], userId);
    }
  }

  lemma StartCallsSnoc(names: seq<string>, x: string, userId: string, username: string)
    ensures StartCalls(names + [x], userId, username)
      == StartCalls(names, userId, username) + [StartSession(userId, username, x)]
  {
    assert (names + [x])[..|names|] == names;
  }

  lemma EndCallsSnoc(names: seq<string>, x: string, userId: string)
    ensures EndCalls(names + [x], userId) == EndCalls(names, userId) + [EndSession(userId, x)]
  {
    assert (names + [x])[..|names|] == names;
  }

  /** The calls of the listener for a non-bot member: a start for each playing name
      of `after` that `before` lacks, then an end for each playing name of `before`
      that `after` lacks. */
  function PresenceCalls(before: Member, after: Member): seq<SessionCall> {
    var bk, ak := PlayingKeys(before.activities), PlayingKeys(after.activities);
    StartCalls(Missing(ak, bk), after.id, after.name) + EndCalls(Missing(bk, ak), after.id)
  }

  /** Scanning one more key adds it to the missing names when `others` lacks it. */
  lemma MissingStep(keys: seq<string>, others: seq<string>, i: nat)
    requires i < |keys|
    ensures Missing(keys[..i + 1], others)
      == Missing(keys[..i], others) + (if keys[i] in others then [] else [keys[i]])
  {
    assert keys[..i + 1][..i] == keys[..i];
  }

  /** Whether `m` shows an activity of type playing named `n`. */
  predicate PlaysIn(m: Member, n: string) {
    exists a :: a in m.activities && a.kind == Playing && a.name == n
  }

  /** One more key scanned by the first loop: one more start call when the key is new. */
  lemma StartStep(ak: seq<string>, bk: seq<string>, i: nat, userId: string, username: string)
    requires i < |ak|
    ensures StartCalls(Missing(ak[..i + 1], bk), userId, username)
      == StartCalls(Missing(ak[..i], bk), userId, username)
        + (if ak[i] in bk then [] else [StartSession(userId, username, ak[i])])
  {
    MissingStep(ak, bk, i);
    if ak[i] !in bk {
      StartCallsSnoc(Missing(ak[..i], bk), ak[i], userId, username);
    } else {
      assert Missing(ak[..i + 1], bk) == Missing(ak[..i], bk);
    }
  }

  /** One more key scanned by the second loop: one more end call when the key is gone. */
  lemma EndStep(bk: seq<string>, ak: seq<string>, j: nat, userId: string)
    requires j < |bk|
    ensures EndCalls(Missing(bk[..j + 1], ak), userId)
      == EndCalls(Missing(bk[..j], ak), userId) + (if bk[j] in ak then [] else [EndSession(userId, bk[j])])
  {
    MissingStep(bk, ak, j);
    if bk[j] !in ak {
      EndCallsSnoc(Missing(bk[..j], ak), bk[j], userId);
    } else {
      assert Missing(bk[..j + 1], ak) == Missing(bk[..j], ak);
    }
  }

  /** The listener starts a session, under the member's id and name, exactly for each
      name played after the update but not before. */
  lemma PresenceStarts(before: Member, after: Member, n: string)
    ensures StartSession(after.id, after.name, n) in PresenceCalls(before, after) <==>
      PlaysIn(after, n) && !PlaysIn(before, n)
  {
    var bk, ak := PlayingKeys(before.activities), PlayingKeys(after.activities);
    var starts := Missing(ak, bk);
    var sc, ec := StartCalls(starts, after.id, after.name), EndCalls(Missing(bk, ak), after.id);
    var calls := PresenceCalls(before, after);
    assert calls == sc + ec;
    StartCallsAt(starts, after.id, after.name);
    EndCallsAt(Missing(bk, ak), after.id);
    PlayingKeysFacts(before.activities);
    PlayingKeysFacts(after.activities);
    MissingMembers(ak, bk);
    if StartSession(after.id, after.name, n) in calls {
      var i :| 0 <= i < |calls| && calls[i] == StartSession(after.id, after.name, n);
      assert i < |starts| && starts[i] == n;
    }
    if n in starts {
      var i :| 0 <= i < |starts| && starts[i] == n;
      assert calls[i] == StartSession(after.id, after.name, n);
    }
  }

  /** Only start calls are built from start names. */
  lemma {:induction false} NoEndInStarts(names: seq<string>, userId: string, username: string, n: string)
    ensures EndSession(userId, n) !in StartCalls(names, userId, username)
  {
    if names != [] {
      NoEndInStarts(names[..|names| - 1], userId, username, n);
    }
  }

  /** An end call is built exactly for each name. */
  lemma {:induction false} EndCallsMember(names: seq<string>, userId: string, n: string)
    ensures EndSession(userId, n) in EndCalls(names, userId) <==> n in names
  {
    if names != [] {
      var last := names[|names| - 1];
      EndCallsMember(names[..|names| - 1], userId, n);
      assert names == names[..|names| - 1] + [last];
    }
  }

  /** The listener ends a session exactly for each name played before the update but
      not after. */
  lemma PresenceEnds(before: Member, after: Member, n: string)
    ensures EndSession(after.id, n) in PresenceCalls(before, after) <==>
      PlaysIn(before, n) && !PlaysIn(after, n)
  {
    var bk, ak := PlayingKeys(before.activities), PlayingKeys(after.activities);
    var starts, ends := Missing(ak, bk), Missing(bk, ak);
    assert PresenceCalls(before, after) == StartCalls(starts, after.id, after.name) + EndCalls(ends, after.id);
    NoEndInStarts(starts, after.id, after.name, n);
    EndCallsMember(ends, after.id, n);
    PlayingKeysFacts(before.activities);
    PlayingKeysFacts(after.activities);
    MissingMembers(bk, ak);
  }

  /** Every call is for the member after the update, and no call is made twice, even
      when several activities share a name. */
  lemma PresenceCallsDistinct(before: Member, after: Member)
    ensures forall c :: c in PresenceCalls(before, after) ==> c.userId == after.id
    ensures var calls := PresenceCalls(before, after);
      forall i, j :: 0 <= i < j < |calls| ==> calls[i] != calls[j]
  {
    var bk, ak := PlayingKeys(before.activities), PlayingKeys(after.activities);
    var starts, ends := Missing(ak, bk), Missing(bk, ak);
    var sc, ec := StartCalls(starts, after.id, after.name), EndCalls(ends, after.id);
    var calls := PresenceCalls(before, after);
    assert calls == sc + ec;
    StartCallsAt(starts, after.id, after.name);
    EndCallsAt(ends, after.id);
    PlayingKeysFacts(before.activities);
    PlayingKeysFacts(after.activities);
    MissingDistinct(ak, bk);
    MissingDistinct(bk, ak);
    forall i, j | 0 <= i < j < |calls| ensures calls[i] != calls[j] {
      if j < |starts| {
        assert starts[i] != starts[j];
      } else if |starts| <= i {
        assert ends[i - |starts|] != ends[j - |starts|];
      }
    }
  }

  /** `on_presence_update`: ignored only when the member after the update is a bot
      (a bot `before` is not checked); otherwise the starts, then the ends, each loop
      over the dict in its order. */
  method OnPresenceUpdate(before: Member, after: Member) returns (calls: seq<SessionCall>)
    ensures after.bot ==> calls == []
    ensures !after.bot ==> calls == PresenceCalls(before, after)
  {
    if after.bot {
      return [];
    }
    var bk := PlayingKeys(before.activities);
    var ak := PlayingKeys(after.activities);
    var starts := StartLoop(ak, bk, after.id, after.name);
    var ends := EndLoop(bk, ak, after.id);
    calls := starts + ends;
  }

  /** `for activity_name in after_activities: if activity_name not in before_activities:
      start_activity_session(...)`. */
  method StartLoop(ak: seq<string>, bk: seq<string>, userId: string, username: string) returns (calls: seq<SessionCall>)
    ensures calls == StartCalls(Missing(ak, bk), userId, username)
  {
    calls := [];
    var i := 0;
    while i < |ak|
      invariant 0 <= i <= |ak|
      invariant calls == StartCalls(Missing(ak[..i], bk), userId, username)
    {
      StartStep(ak, bk, i, userId, username);
      if ak[i] !in bk {
        calls := calls + [StartSession(userId, username, ak[i])];
      }
      i := i + 1;
    }
    assert ak[..i] == ak;
  }

  /** `for activity_name in before_activities: if activity_name not in after_activities:
      end_activity_session(...)`. */
  method EndLoop(bk: seq<string>, ak: seq<string>, userId: string) returns (calls: seq<SessionCall>)
    ensures calls == EndCalls(Missing(bk, ak), userId)
  {
    calls := [];
    var j := 0;
    while j < |bk|
      invariant 0 <= j <= |bk|
      invariant calls == EndCalls(Missing(bk[..j], ak), userId)
    {
      EndStep(bk, ak, j, userId);
      if bk[j] !in ak {
        calls := calls + [EndSession(userId, bk[j])];
      }
      j := j + 1;
    }
    assert bk[..j] == bk;
  }

  // ---- sync_members_task -----------------------------------------------------------

  /** The `{"id", "name"}` record stored for a member. */
  datatype MemberData = MemberData(id: string, name: string)

  /** The non-bot members' records, in iteration order. */
  function NonBotData(ms: seq<Member>): seq<MemberData> {
    if ms == [] then []
    else
      var m := ms[|ms| - 1];
      NonBotData(ms[..|ms| - 1]) + (if m.bot then [] else [MemberData(m.id, m.name)])
  }

  /** The number of bots among the members. */
  function BotCount(ms: seq<Member>): nat {
    if ms == [] then 0
    else BotCount(ms[..|ms| - 1]) + (if ms[|ms| - 1].bot then 1 else 0)
  }

  /** Every member lands on exactly one side: the records plus the bot count make up
      the number of members iterated. */
  lemma {:induction false} PartitionSizes(ms: seq<Member>)
    ensures |NonBotData(ms)| + BotCount(ms) == |ms|
  {
    if ms != [] {
      PartitionSizes(ms[..|ms| - 1]);
    }
  }

  /** The records are exactly those of the non-bot members. */
  lemma {:induction false} NonBotDataExact(ms: seq<Member>, d: MemberData)
    ensures d in NonBotData(ms) <==> exists m :: m in ms && !m.bot && d == MemberData(m.id, m.name)
  {
    if ms != [] {
      var m := ms[|ms| - 1];
      NonBotDataExact(ms[..|ms| - 1], d);
      assert ms == ms[..|ms| - 1] + [m];
      assert forall x :: x in ms <==> x in ms[..|ms| - 1] || x == m;
    }
  }

  /** The loop over a guild's members that fills `members_data` and counts bots. */
  method PartitionMembers(ms: seq<Member>) returns (membersData: seq<MemberData>, botCount: nat)
    ensures membersData == NonBotData(ms) && botCount == BotCount(ms)
    ensures |membersData| + botCount == |ms|
  {
    membersData, botCount := [], 0;
    var i := 0;
    while i < |ms|
      invariant 0 <= i <= |ms|
      invariant membersData == NonBotData(ms[..i]) && botCount == BotCount(ms[..i])
    {
      assert ms[..i + 1][..i] == ms[..i];
      if ms[i].bot {
        botCount := botCount + 1;
      } else {
        membersData := membersData + [MemberData(ms[i].id, ms[i].name)];
      }
      i := i + 1;
    }
    assert ms[..i] == ms;
    PartitionSizes(ms);
  }

  /** A guild as the sync task sees it: its cached members and the result of
      `fetch_members` (None when the fetch raises). */
  datatype Guild = Guild(name: string, cached: seq<Member>, fetched: Option<seq<Member>>)

  /** The members a guild is synced from: the API fetch when the cache holds at most
      one member, the cache otherwise. */
  function GuildMembers(g: Guild): Option<seq<Member>> {
    if |g.cached| <= 1 then g.fetched else Some(g.cached)
  }

  /** The `sync_member_profiles` calls of one run, one per guild that yields at least
      one non-bot member, in guild order. */
  function SyncCalls(guilds: seq<Guild>): seq<seq<MemberData>> {
    if guilds == [] then []
    else
      var g := guilds[|guilds| - 1];
      var ms := GuildMembers(g);
      SyncCalls(guilds[..|guilds| - 1])
        + (if ms.Some? && NonBotData(ms.value) != [] then [NonBotData(ms.value)] else [])
  }

  /** `sync_members_task`: nothing before the bot is ready, otherwise one sync call
      per guild with non-bot members. */
  method SyncMembersTask(ready: bool, guilds: seq<Guild>) returns (syncs: seq<seq<MemberData>>)
    ensures !ready ==> syncs == []
    ensures ready ==> syncs == SyncCalls(guilds)
  {
    syncs := [];
    if !ready {
      return;
    }
    var i := 0;
    while i < |guilds|
      invariant 0 <= i <= |guilds|
      invariant syncs == SyncCalls(guilds[..i])
    {
      assert guilds[..i + 1][..i] == guilds[..i];
      var g := guilds[i];
      var membersData: seq<MemberData>;
      var botCount: nat;
      if |g.cached| <= 1 {
        if g.fetched.None? {
          // the fetch raised: skip this guild
          i := i + 1;
          continue;
        }
        membersData, botCount := PartitionMembers(g.fetched.value);
      } else {
        membersData, botCount := PartitionMembers(g.cached);
      }
      if membersData != [] {
        syncs := syncs + [membersData];
      }
      i := i + 1;
    }
    assert guilds[..i] == guilds;
  }

  /** No sync call is ever made with an empty member list. */
  lemma {:induction false} SyncCallsNonEmpty(guilds: seq<Guild>)
    ensures forall s :: s in SyncCalls(guilds) ==> s != []
  {
    if guilds != [] {
      SyncCallsNonEmpty(guilds[..|guilds| - 1]);
    }
  }

  /** The API is only consulted for guilds whose cache holds at most one member:
      when every cache is larger, the fetch results make no difference. */
  lemma {:induction false} FetchOnlyForSmallCache(guilds: seq<Guild>, fetched: seq<Option<seq<Member>>>)
    requires |fetched| == |guilds|
    requires forall i :: 0 <= i < |guilds| ==> |guilds[i].cached| > 1
    ensures SyncCalls(guilds)
      == SyncCalls(seq(|guilds|, i requires 0 <= i < |guilds| => guilds[i].(fetched := fetched[i])))
  {
    var other := seq(|guilds|, i requires 0 <= i < |guilds| => guilds[i].(fetched := fetched[i]));
    if guilds != [] {
      var n := |guilds| - 1;
      FetchOnlyForSmallCache(guilds[..n], fetched[..n]);
      assert other[..n] == seq(n, i requires 0 <= i < n => guilds[..n][i].(fetched := fetched[..n][i]));
    }
  }
}
