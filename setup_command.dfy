/**
 * The `/setup` slash command: `channel` and `hide` upsert one column of the guild's
 * configuration row, `reset` deletes the row and `view` reports it. A failing statement or a
 * failing reply ends in the catch, which answers with an ephemeral error unless the interaction
 * was already answered.
 */
module SetupCommand {
  import opened Common
  import opened ConfigStore

  datatype Subcommand = SetChannel(channelId: string) | View | SetHide(flag: bool) | Reset | Unknown

  /** Which of the two awaited effects throws: the table statement, the first reply. */
  datatype Faults = Faults(store: bool, reply: bool)

  /** What the command answers. */
  datatype Reply =
    | ChannelSet(channelId: string)
    | NoConfig
    | ConfigReport(channel: Option<string>, hidden: string)
    | HideSet(flag: bool)
    | ResetDone
    | ErrorReply

  /** The hide column as the view reports it. */
  function YesNo(b: bool): string {
    if b then "Yes" else "No"
  }

  /** The effect of one execution: the table afterwards and the replies attempted, in order. */
  datatype Outcome = Outcome(rows: map<string, Row>, replies: seq<Reply>)

  /** The reply for a subcommand whose statement succeeded, and the table after it. */
  function Answer(rows: map<string, Row>, guild: string, sub: Subcommand): Outcome
    requires !sub.Unknown?
  {
    match sub
    case SetChannel(c) => Outcome(WithChannel(rows, guild, c), [ChannelSet(c)])
    case View =>
      Outcome(rows, [if guild in rows then ConfigReport(rows[guild].channelId, YesNo(rows[guild].hideNonRoles)) else NoConfig])
    case SetHide(f) => Outcome(WithHide(rows, guild, f), [HideSet(f)])
    case Reset => Outcome(Without(rows, guild), [ResetDone])
  }

  /**
   * execute. An unknown subcommand matches no case and does nothing. A failed statement leaves
   * the table as it was; a failed reply comes after the statement took effect. Either failure is
   * answered with the error reply when `replied` is false.
   */
  function Run(rows: map<string, Row>, guild: string, sub: Subcommand, faults: Faults, replied: bool): Outcome {
    if sub.Unknown? then Outcome(rows, [])
    else
      var error := if replied then [] else [ErrorReply];
      if faults.store then Outcome(rows, error)
      else
        var done := Answer(rows, guild, sub);
        if faults.reply then Outcome(done.rows, done.replies + error) else done
  }

  /** After a successful `channel`, `view` reports that channel and the hide flag the guild had before. */
  lemma ChannelThenView(rows: map<string, Row>, guild: string, c: string)
    ensures var after := Run(rows, guild, SetChannel(c), Faults(false, false), false).rows;
            Run(after, guild, View, Faults(false, false), false).replies ==
              [ConfigReport(Some(c), YesNo(guild in rows && rows[guild].hideNonRoles))]
  {}

  /** After a successful `hide`, `view` reports the flag and the channel the guild had before (NULL when the row is new). */
  lemma HideThenView(rows: map<string, Row>, guild: string, f: bool)
    ensures var after := Run(rows, guild, SetHide(f), Faults(false, false), false).rows;
            Run(after, guild, View, Faults(false, false), false).replies ==
              [ConfigReport(if guild in rows then rows[guild].channelId else None, YesNo(f))]
  {}

  /** After a successful `reset`, `view` finds no configuration. */
  lemma ResetThenView(rows: map<string, Row>, guild: string)
    ensures var after := Run(rows, guild, Reset, Faults(false, false), false).rows;
            Run(after, guild, View, Faults(false, false), false).replies == [NoConfig]
  {}

  /** The view reports "Yes" exactly when the stored flag is set. */
  lemma ViewLabel(rows: map<string, Row>, guild: string)
    requires guild in rows
    ensures var r := Run(rows, guild, View, Faults(false, false), false).replies;
            |r| == 1 && r[0].ConfigReport? && (r[0].hidden == "Yes" <==> rows[guild].hideNonRoles) &&
            (r[0].hidden == "No" <==> !rows[guild].hideNonRoles)
  {}

  /**
   * The error reply is sent exactly when something threw and the interaction was not answered,
   * and it is always the last reply; a failed statement leaves the table unchanged, and `view`
   * never changes it.
   */
  lemma ErrorReplyIff(rows: map<string, Row>, guild: string, sub: Subcommand, faults: Faults, replied: bool)
    ensures var o := Run(rows, guild, sub, faults, replied);
            (ErrorReply in o.replies <==> !sub.Unknown? && (faults.store || faults.reply) && !replied) &&
            (ErrorReply in o.replies ==> o.replies[|o.replies| - 1] == ErrorReply) &&
            (faults.store || sub.View? || sub.Unknown? ==> o.rows == rows)
  {}

  /** Only the invoking guild's row can change. */
  lemma OtherGuildsUntouched(rows: map<string, Row>, guild: string, sub: Subcommand, faults: Faults, replied: bool, other: string)
    requires other != guild
    ensures Lookup(Run(rows, guild, sub, faults, replied).rows, other) == Lookup(rows, other)
  {}

  /** execute on the shared table. */
  method Execute(table: GuildConfigTable, guild: string, sub: Subcommand, faults: Faults, replied: bool)
    returns (replies: seq<Reply>)
    modifies table
    ensures var o := Run(old(table.rows), guild, sub, faults, replied);
            table.rows == o.rows && replies == o.replies
  {
    replies := [];
    var ok := true;
    match sub {
      case SetChannel(c) =>
        ok := table.UpsertChannel(guild, c, faults.store);
        if ok {
          replies := [ChannelSet(c)];
        }
      case View =>
        var found := table.Get(guild, faults.store);
        ok := found.Found?;
        if ok {
          if found.row.None? {
            replies := [NoConfig];
          } else {
            replies := [ConfigReport(found.row.value.channelId, YesNo(found.row.value.hideNonRoles))];
          }
        }
      case SetHide(f) =>
        ok := table.UpsertHide(guild, f, faults.store);
        if ok {
          replies := [HideSet(f)];
        }
      case Reset =>
        ok := table.Delete(guild, faults.store);
        if ok {
          replies := [ResetDone];
        }
      case Unknown =>
        return;
    }
    if (!ok || faults.reply) && !replied {
      replies := replies + [ErrorReply];
    }
  }
}
