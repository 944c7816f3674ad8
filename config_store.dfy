/**
 * The guild_config table as the bot's statements use it: one row per guild id holding the
 * announcement channel, the hide flag and the worker that owns the guild. The SQL engine is
 * replaced by a map from guild id to row; whether a statement fails is an input of the caller.
 */
module ConfigStore {
  import opened Common

  /**
   * One row. `channelId` None is SQL NULL; `hideNonRoles` defaults to 0 (false); `workerId` None
   * when the row was created by a statement that does not set it.
   */
  datatype Row = Row(channelId: Option<string>, hideNonRoles: bool, workerId: Option<string>)

  /** `INSERT (guild_id, channel_id) ... ON CONFLICT DO UPDATE SET channel_id`: an upsert of the channel alone. */
  function WithChannel(rows: map<string, Row>, guild: string, channel: string): map<string, Row> {
    rows[guild := if guild in rows then rows[guild].(channelId := Some(channel)) else Row(Some(channel), false, None)]
  }

  /** `INSERT (guild_id, hide_non_roles) ... ON CONFLICT DO UPDATE SET hide_non_roles`: an upsert of the flag alone. */
  function WithHide(rows: map<string, Row>, guild: string, flag: bool): map<string, Row> {
    rows[guild := if guild in rows then rows[guild].(hideNonRoles := flag) else Row(None, flag, None)]
  }

  /** `INSERT (guild_id, worker_id) ... ON CONFLICT DO UPDATE SET updated_at`: creates the row, never changes an existing one. */
  function WithGuild(rows: map<string, Row>, guild: string, worker: string): map<string, Row> {
    if guild in rows then rows else rows[guild := Row(None, false, Some(worker))]
  }

  /** `DELETE ... WHERE guild_id = $1` */
  function Without(rows: map<string, Row>, guild: string): map<string, Row> {
    rows - {guild}
  }

  /** `SELECT ... WHERE guild_id = $1` */
  function Lookup(rows: map<string, Row>, guild: string): Option<Row> {
    if guild in rows then Some(rows[guild]) else None
  }

  /** The ids of the rows a worker loads at start-up: `SELECT * ... WHERE worker_id = $1`. */
  function OwnedBy(rows: map<string, Row>, worker: string): set<string> {
    set g | g in rows && rows[g].workerId == Some(worker)
  }

  /** Setting the channel creates the row when absent and otherwise keeps the hide flag and the owner; no other row changes. */
  lemma ChannelKeepsOtherColumns(rows: map<string, Row>, guild: string, channel: string)
    ensures var r := WithChannel(rows, guild, channel);
            guild in r && r[guild].channelId == Some(channel) &&
            r[guild].hideNonRoles == (guild in rows && rows[guild].hideNonRoles) &&
            r[guild].workerId == (if guild in rows then rows[guild].workerId else None) &&
            forall g :: g != guild ==> Lookup(r, g) == Lookup(rows, g)
  {}

  /** Setting the flag creates the row when absent and otherwise keeps the channel and the owner; no other row changes. */
  lemma HideKeepsOtherColumns(rows: map<string, Row>, guild: string, flag: bool)
    ensures var r := WithHide(rows, guild, flag);
            guild in r && r[guild].hideNonRoles == flag &&
            r[guild].channelId == (if guild in rows then rows[guild].channelId else None) &&
            r[guild].workerId == (if guild in rows then rows[guild].workerId else None) &&
            forall g :: g != guild ==> Lookup(r, g) == Lookup(rows, g)
  {}

  /** The two upserts touch different columns, so their order does not matter. */
  lemma ChannelAndHideCommute(rows: map<string, Row>, guild: string, channel: string, flag: bool)
    ensures WithChannel(WithHide(rows, guild, flag), guild, channel) == WithHide(WithChannel(rows, guild, channel), guild, flag)
  {}

  /** Repeating an upsert changes nothing more. */
  lemma UpsertsIdempotent(rows: map<string, Row>, guild: string, channel: string, flag: bool)
    ensures WithChannel(WithChannel(rows, guild, channel), guild, channel) == WithChannel(rows, guild, channel)
    ensures WithHide(WithHide(rows, guild, flag), guild, flag) == WithHide(rows, guild, flag)
  {}

  /** After a delete the guild has no row, and the other rows are as they were. */
  lemma DeleteRemovesOnlyThatRow(rows: map<string, Row>, guild: string)
    ensures Lookup(Without(rows, guild), guild) == None
    ensures forall g :: g != guild ==> Lookup(Without(rows, guild), g) == Lookup(rows, g)
  {}

  /** Registering a guild keeps an existing configuration and gives a new row to the registering worker. */
  lemma GuildInsertKeepsConfig(rows: map<string, Row>, guild: string, worker: string)
    ensures guild in rows ==> WithGuild(rows, guild, worker) == rows
    ensures guild !in rows ==> Lookup(WithGuild(rows, guild, worker), guild) == Some(Row(None, false, Some(worker)))
    ensures guild in OwnedBy(WithGuild(rows, guild, worker), worker) <==> guild !in rows || rows[guild].workerId == Some(worker)
  {}

  /** A row first created by a setup upsert has no owner, so no worker loads it at start-up until it is deleted and re-registered. */
  lemma SetupFirstRowIsUnowned(rows: map<string, Row>, guild: string, channel: string, flag: bool, worker: string)
    requires guild !in rows
    ensures guild !in OwnedBy(WithChannel(rows, guild, channel), worker)
    ensures guild !in OwnedBy(WithHide(rows, guild, flag), worker)
    ensures guild !in OwnedBy(WithGuild(WithChannel(rows, guild, channel), guild, worker), worker)
  {}

  /** The table object; its statements either succeed or fail without changing it. */
  class GuildConfigTable {
    var rows: map<string, Row>

    constructor ()
      ensures rows == map[]
    {
      rows := map[];
    }

    method UpsertChannel(guild: string, channel: string, fails: bool) returns (ok: bool)
      modifies this
      ensures ok == !fails
      ensures rows == if fails then old(rows) else WithChannel(old(rows), guild, channel)
    {
      if fails {
        return false;
      }
      if guild in rows {
        rows := rows[guild := rows[guild].(channelId := Some(channel))];
      } else {
        rows := rows[guild := Row(Some(channel), false, None)];
      }
      return true;
    }

    method UpsertHide(guild: string, flag: bool, fails: bool) returns (ok: bool)
      modifies this
      ensures ok == !fails
      ensures rows == if fails then old(rows) else WithHide(old(rows), guild, flag)
    {
      if fails {
        return false;
      }
      if guild in rows {
        rows := rows[guild := rows[guild].(hideNonRoles := flag)];
      } else {
        rows := rows[guild := Row(None, flag, None)];
      }
      return true;
    }

    method InsertGuild(guild: string, worker: string, fails: bool) returns (ok: bool)
      modifies this
      ensures ok == !fails
      ensures rows == if fails then old(rows) else WithGuild(old(rows), guild, worker)
    {
      if fails {
        return false;
      }
      if guild !in rows {
        rows := rows[guild := Row(None, false, Some(worker))];
      }
      return true;
    }

    method Delete(guild: string, fails: bool) returns (ok: bool)
      modifies this
      ensures ok == !fails
      ensures rows == if fails then old(rows) else Without(old(rows), guild)
    {
      if fails {
        return false;
      }
      rows := rows - {guild};
      return true;
    }

    method Get(guild: string, fails: bool) returns (r: Result)
      ensures fails ==> r == Failed
      ensures !fails ==> r == Found(Lookup(rows, guild))
    {
      if fails {
        return Failed;
      }
      if guild in rows {
        return Found(Some(rows[guild]));
      }
      return Found(None);
    }
  }

  /** The answer to a single-row read: the row (None when absent), or a failed statement. */
  datatype Result = Failed | Found(row: Option<Row>)
}
