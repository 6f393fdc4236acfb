/** The ranking cog (bot/commands_ranking.py): the presence listener that opens and
    closes play sessions from the set difference of "playing" activity names, and the
    `!rank` category dispatch. */
module Ranking {
  import opened Wrappers
  import opened Text
  import opened Discord

  /** The set comprehension over a member's activities of type playing. */
  function PlayingNames(m: Member): (r: set<string>)
    ensures forall n :: n in r <==> exists a :: a in m.activities && a.kind == Playing && a.name == n
  {
    set a | a in m.activities && a.kind == Playing :: a.name
  }

  /** Names played after the update but not before. */
  function Started(before: Member, after: Member): set<string> {
    PlayingNames(after) - PlayingNames(before)
  }

  /** Names played before the update but not after. */
  function Stopped(before: Member, after: Member): set<string> {
    PlayingNames(before) - PlayingNames(after)
  }

  /** One call per name of `names`, in the set's (unspecified) iteration order. */
  method CallsFor(names: set<string>, start: bool, userId: string, username: string) returns (calls: seq<SessionCall>)
    ensures |calls| == |names|
    ensures forall i :: 0 <= i < |calls| ==>
      calls[i] == (if start then StartSession(userId, username, calls[i].activity) else EndSession(userId, calls[i].activity))
    ensures forall i :: 0 <= i < |calls| ==> calls[i].activity in names
    ensures forall n :: n in names ==> exists i :: 0 <= i < |calls| && calls[i].activity == n
  {
    calls := [];
    var remaining := names;
    while remaining != {}
      invariant remaining <= names
      invariant |calls| + |remaining| == |names|
      invariant forall i :: 0 <= i < |calls| ==>
        calls[i] == (if start then StartSession(userId, username, calls[i].activity) else EndSession(userId, calls[i].activity))
      invariant forall i :: 0 <= i < |calls| ==> calls[i].activity in names - remaining
      invariant forall n :: n in names - remaining ==> exists i :: 0 <= i < |calls| && calls[i].activity == n
      decreases |remaining|
    {
      var n :| n in remaining;
      var call := if start then StartSession(userId, username, n) else EndSession(userId, n);
      ghost var prev := calls;
      calls := calls + [call];
      assert calls[|calls| - 1].activity == n;
      assert forall i :: 0 <= i < |prev| ==> calls[i] == prev[i];
      forall m | m in names - (remaining - {n})
        ensures exists i :: 0 <= i < |calls| && calls[i].activity == m
      {
        if m != n {
          assert m in names - remaining;
          var i :| 0 <= i < |prev| && prev[i].activity == m;
          assert calls[i].activity == m;
        }
      }
      remaining := remaining - {n};
    }
    assert names - remaining == names;
  }

  /** `on_presence_update`: nothing when either snapshot is a bot; otherwise one
      start per started name, with the member's display name, then one end per
      stopped name. */
  method OnPresenceUpdate(before: Member, after: Member) returns (calls: seq<SessionCall>)
    ensures before.bot || after.bot ==> calls == []
    ensures !before.bot && !after.bot ==>
      && |calls| == |Started(before, after)| + |Stopped(before, after)|
      && (forall n :: n in Started(before, after) ==> StartSession(after.id, after.displayName, n) in calls)
      && (forall n :: n in Stopped(before, after) ==> EndSession(after.id, n) in calls)
      && (forall c :: c in calls && c.StartSession? ==>
            c.userId == after.id && c.username == after.displayName && c.activity in Started(before, after))
      && (forall c :: c in calls && c.EndSession? ==> c.userId == after.id && c.activity in Stopped(before, after))
    ensures forall i, j :: 0 <= i < j < |calls| && calls[j].StartSession? ==> calls[i].StartSession?
  {
    if before.bot || after.bot {
      return [];
    }
    var started := Started(before, after);
    var stopped := Stopped(before, after);
    var starts := CallsFor(started, true, after.id, after.displayName);
    var ends := CallsFor(stopped, false, after.id, after.displayName);
    calls := starts + ends;
    forall n | n in started ensures StartSession(after.id, after.displayName, n) in calls {
      var i :| 0 <= i < |starts| && starts[i].activity == n;
      assert calls[i] == starts[i];
    }
    forall n | n in stopped ensures EndSession(after.id, n) in calls {
      var i :| 0 <= i < |ends| && ends[i].activity == n;
      assert calls[|starts| + i] == ends[i];
    }
    forall c | c in calls ensures c.StartSession? ==> c.activity in started
      ensures c.EndSession? ==> c.activity in stopped
    {
      var i :| 0 <= i < |calls| && calls[i] == c;
      if i >= |starts| {
        assert c == ends[i - |starts|];
      }
    }
  }

  // ---- !rank ---------------------------------------------------------------------------

  /** What `!rank` does: reply with a text, or run one of the ranking queries (whose
      own bodies are not part of this model). */
  datatype RankAction =
    | Reply(text: string)
    | ShowUserActivities(target: Option<string>)
    | ShowGlobalRank(game: string)
    | ShowTopActivities
    | ShowTopMembers

  const Usage: string :=
    "\U{274C} Uso correto:\n"
    + "`!rank atividades [usuario]` - Top atividades de um usu\U{E1}rio\n"
    + "`!rank global <jogo>` - Ranking global de um jogo\n"
    + "`!rank top_atividades` - Atividades mais realizadas\n"
    + "`!rank top_membros` - Membros com mais horas"

  const MissingGame: string :=
    "\U{274C} Voc\U{EA} precisa especificar o nome do jogo! Ex: `!rank global League of Legends`"

  const InvalidCategory: string :=
    "\U{274C} Categoria inv\U{E1}lida! Use `atividades`, `global`, `top_atividades` ou `top_membros`."

  /** A Python string argument that is missing or empty is false. */
  predicate Given(o: Option<string>) {
    o.Some? && o.value != ""
  }

  /** The `!rank` dispatch on the lower-cased category. */
  function Rank(category: Option<string>, target: Option<string>): (r: RankAction)
    ensures !Given(category) ==> r == Reply(Usage)
    ensures r.ShowUserActivities? <==> Given(category) && Lower(category.value) == "atividades"
    ensures r.ShowUserActivities? ==> r.target == target
    ensures r.ShowGlobalRank? <==> Given(category) && Lower(category.value) == "global" && Given(target)
    ensures r.ShowGlobalRank? ==> r.game == target.value
    ensures r == Reply(MissingGame) <==> Given(category) && Lower(category.value) == "global" && !Given(target)
    ensures r.ShowTopActivities? <==> Given(category) && Lower(category.value) == "top_atividades"
    ensures r.ShowTopMembers? <==> Given(category) && Lower(category.value) == "top_membros"
    ensures r == Reply(InvalidCategory) <==>
      Given(category) && Lower(category.value) !in {"atividades", "global", "top_atividades", "top_membros"}
  {
    if !Given(category) then Reply(Usage)
    else
      var c := Lower(category.value);
      if c == "atividades" then ShowUserActivities(target)
      else if c == "global" then (if !Given(target) then Reply(MissingGame) else ShowGlobalRank(target.value))
      else if c == "top_atividades" then ShowTopActivities
      else if c == "top_membros" then ShowTopMembers
      else Reply(InvalidCategory)
  }

  /** The category is matched without regard to ASCII case: "GLOBAL", "Global" and
      "global" dispatch alike. */
  lemma RankIgnoresCase(c1: string, c2: string, target: Option<string>)
    requires Lower(c1) == Lower(c2) && c1 != "" && c2 != ""
    ensures Rank(Some(c1), target) == Rank(Some(c2), target)
  {
  }
}
