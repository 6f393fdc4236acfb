/** The parts of a Discord member that the presence listeners and the member sync read. */
module Discord {
  /** The kinds of `discord.ActivityType`; only `Playing` is tracked. */
  datatype ActivityType = Playing | Streaming | Listening | Watching | CustomStatus | Competing

  datatype MemberActivity = MemberActivity(name: string, kind: ActivityType)

  /** A guild member; `id` is already the string `str(member.id)`. */
  datatype Member = Member(id: string, name: string, displayName: string, bot: bool, activities: seq<MemberActivity>)

  /** The calls the listeners make into the activity store; `start_activity_session`
      and `end_activity_session` themselves are not part of this model. */
  datatype SessionCall =
    | StartSession(userId: string, username: string, activity: string)
    | EndSession(userId: string, activity: string)
}
