/**
 * The per-worker guild registry of the Discord service: the in-memory map of guilds this worker
 * serves, filled from the guild_config rows the worker owns, grown by the join event, shrunk by
 * the leave event and handed, entry by entry, to the notification loop. Also the filter that
 * decides which command modules are registered, and the routing of an interaction to one of them.
 */
module Registry {
  import opened Common
  import opened Messaging
  import opened ConfigStore

  // ---------------------------------------------------------------------------------------------
  // The guild map, with the insertion order of a JavaScript Map

  /** Keys in insertion order, and the entry of each key. */
  datatype Registry = Registry(order: seq<string>, entries: map<string, GuildEntry>)

  predicate Distinct(s: seq<string>) {
    forall i, j :: 0 <= i < j < |s| ==> s[i] != s[j]
  }

  /** Each key is listed once, the listed keys are exactly the stored ones, and each entry is stored under its own id. */
  predicate Wellformed(r: Registry) {
    Distinct(r.order) &&
    (forall k :: 0 <= k < |r.order| ==> r.order[k] in r.entries) &&
    (forall id :: id in r.entries ==> id in r.order && r.entries[id].id == id)
  }

  /** `guilds.set(e.id, e)`: a new key goes last, an existing key keeps its place. */
  function Put(r: Registry, e: GuildEntry): Registry {
    Registry(if e.id in r.entries then r.order else r.order + [e.id], r.entries[e.id := e])
  }

  /** The keys of `s` other than `id`, in their order. */
  function RemoveKey(s: seq<string>, id: string): (r: seq<string>)
    ensures forall x :: x in r <==> x in s && x != id
    ensures |r| <= |s|
  {
    if s == [] then []
    else RemoveKey(s[..|s| - 1], id) + (if s[|s| - 1] == id then [] else [s[|s| - 1]])
  }

  /** `guilds.delete(id)` */
  function Remove(r: Registry, id: string): Registry {
    Registry(RemoveKey(r.order, id), r.entries - {id})
  }

  /** `Array.from(guilds.values())` */
  function Values(r: Registry): seq<GuildEntry>
    requires forall k :: 0 <= k < |r.order| ==> r.order[k] in r.entries
  {
    seq(|r.order|, i requires 0 <= i < |r.order| => r.entries[r.order[i]])
  }

  /** Setting an entry keeps the registry well formed, stores the entry and changes no other key. */
  lemma PutStores(r: Registry, e: GuildEntry)
    requires Wellformed(r)
    ensures var p := Put(r, e);
            Wellformed(p) && p.entries[e.id] == e &&
            (forall id :: id != e.id ==> (id in p.entries <==> id in r.entries) && (id in r.entries ==> p.entries[id] == r.entries[id])) &&
            (e.id in r.entries ==> p.order == r.order) &&
            (e.id !in r.entries ==> p.order == r.order + [e.id])
  {
    var p := Put(r, e);
    if e.id !in r.entries {
      assert e.id !in r.order;
      forall i, j | 0 <= i < j < |p.order| ensures p.order[i] != p.order[j] {
        if j == |r.order| {
          assert p.order[i] == r.order[i];
        }
      }
    }
  }

  /** Keys of a list without repeats stay without repeats once one key is taken out. */
  lemma {:induction false} RemoveKeyDistinct(s: seq<string>, id: string)
    requires Distinct(s)
    ensures Distinct(RemoveKey(s, id))
  {
    if s != [] {
      var init := s[..|s| - 1];
      RemoveKeyDistinct(init, id);
      assert s[|s| - 1] !in init by {
        forall k | 0 <= k < |init| ensures init[k] != s[|s| - 1] {
          assert init[k] == s[k];
        }
      }
    }
  }

  /** Taking out a key that is not listed changes nothing. */
  lemma {:induction false} RemoveKeyAbsent(s: seq<string>, id: string)
    requires id !in s
    ensures RemoveKey(s, id) == s
  {
    if s != [] {
      var init := s[..|s| - 1];
      assert id !in init by {
        forall k | 0 <= k < |init| ensures init[k] != id {
          assert init[k] == s[k];
        }
      }
      RemoveKeyAbsent(init, id);
      assert init + [s[|s| - 1]] == s;
    }
  }

  /** Deleting a key keeps the registry well formed, drops that key and changes no other. */
  lemma RemoveDrops(r: Registry, id: string)
    requires Wellformed(r)
    ensures var d := Remove(r, id);
            Wellformed(d) && id !in d.entries &&
            forall other :: other != id ==> (other in d.entries <==> other in r.entries) && (other in r.entries ==> d.entries[other] == r.entries[other])
  {
    RemoveKeyDistinct(r.order, id);
    var d := Remove(r, id);
    forall k | 0 <= k < |d.order| ensures d.order[k] in d.entries {
      assert d.order[k] in d.order;
    }
  }

  /** Taking out a key that was appended to a list without it gives back the list. */
  lemma RemoveKeyAppended(s: seq<string>, id: string)
    requires id !in s
    ensures RemoveKey(s + [id], id) == s
  {
    assert (s + [id])[..|s|] == s;
    RemoveKeyAbsent(s, id);
  }

  /** Deleting a guild that was just added restores the registry. */
  lemma PutThenRemove(r: Registry, e: GuildEntry)
    requires Wellformed(r) && e.id !in r.entries
    ensures Remove(Put(r, e), e.id) == r
  {
    assert e.id !in r.order;
    RemoveKeyAppended(r.order, e.id);
    assert r.entries[e.id := e] - {e.id} == r.entries;
  }

  /** The loop is handed each stored entry once, as a value. */
  lemma ValuesAreEntries(r: Registry)
    requires Wellformed(r)
    ensures |Values(r)| == |r.order|
    ensures forall g :: g in Values(r) <==> exists id :: id in r.entries && r.entries[id] == g
  {
    var vs := Values(r);
    forall g | g in vs ensures exists id :: id in r.entries && r.entries[id] == g {
      var i :| 0 <= i < |vs| && vs[i] == g;
      assert r.entries[r.order[i]] == g;
    }
    forall g | exists id :: id in r.entries && r.entries[id] == g ensures g in vs {
      var id :| id in r.entries && r.entries[id] == g;
      var i :| 0 <= i < |r.order| && r.order[i] == id;
      assert vs[i] == g;
    }
  }

  /** A new guild goes last in the list handed to the loop. */
  lemma ValuesPutNew(r: Registry, e: GuildEntry)
    requires Wellformed(r) && e.id !in r.entries
    ensures Wellformed(Put(r, e))
    ensures Values(Put(r, e)) == Values(r) + [e]
  {
    PutStores(r, e);
    assert e.id !in r.order;
    var p := Put(r, e);
    assert forall i :: 0 <= i < |r.order| ==> r.order[i] != e.id && p.order[i] == r.order[i];
  }

  // ---------------------------------------------------------------------------------------------
  // Filling the registry from the table

  /** The registry entry built from a config row and the fetched guild's name. */
  function FromRow(id: string, name: string, row: Row): GuildEntry {
    GuildEntry(id, name, row.channelId, Some(row.hideNonRoles))
  }

  /**
   * The loop of loadGuildsFromDatabase over the selected guild ids: a guild the client can fetch
   * (its id is in `names`) is set from its row; a failed fetch is logged and the loop goes on.
   */
  function Load(r: Registry, ids: seq<string>, rows: map<string, Row>, names: map<string, string>): Registry
    requires forall k :: 0 <= k < |ids| ==> ids[k] in rows
  {
    if ids == [] then r
    else
      var prev := Load(r, ids[..|ids| - 1], rows, names);
      var id := ids[|ids| - 1];
      if id in names then Put(prev, FromRow(id, names[id], rows[id])) else prev
  }

  /**
   * Every selected guild that could be fetched ends up with its row's channel and flag; every
   * other guild, including those whose fetch failed, is as it was.
   */
  lemma {:induction false} LoadEntries(r: Registry, ids: seq<string>, rows: map<string, Row>, names: map<string, string>)
    requires Wellformed(r)
    requires forall k :: 0 <= k < |ids| ==> ids[k] in rows
    ensures var l := Load(r, ids, rows, names);
            Wellformed(l) &&
            (forall id :: id in ids && id in names ==> id in l.entries && l.entries[id] == FromRow(id, names[id], rows[id])) &&
            (forall id :: !(id in ids && id in names) ==> (id in l.entries <==> id in r.entries) && (id in r.entries ==> l.entries[id] == r.entries[id]))
  {
    if ids != [] {
      var init := ids[..|ids| - 1];
      var id := ids[|ids| - 1];
      LoadEntries(r, init, rows, names);
      var prev := Load(r, init, rows, names);
      assert forall x :: x in ids <==> x in init || x == id by {
        assert ids == init + [id];
      }
      if id in names {
        PutStores(prev, FromRow(id, names[id], rows[id]));
      }
    }
  }

  /** A guild just added by the join event has no channel, so it changes none of the sends of the next batch. */
  lemma JoinedGuildIsNotSent(r: Registry, e: GuildEntry, data: seq<Item>, cache: map<string, seq<Role>>)
    requires Wellformed(r) && e.id !in r.entries && e.channelId.None?
    ensures Dispatches(Values(Put(r, e)), data, cache).sends == Dispatches(Values(r), data, cache).sends
  {
    ValuesPutNew(r, e);
    DispatchesSnoc(Values(r), e, data, cache);
  }

  // ---------------------------------------------------------------------------------------------
  // Command registration and routing

  /** What a command module exports: the name of its `data`, when it has one, and whether it has `execute`. */
  datatype CommandModule = CommandModule(data: Option<string>, hasExecute: bool)

  /** A file of the commands directory and the module it exports. */
  datatype CommandFile = CommandFile(fileName: string, exported: CommandModule)

  /** The directory listing keeps the `.js` files. */
  predicate IsScript(fileName: string) {
    |fileName| >= 3 && fileName[|fileName| - 3..] == ".js"
  }

  /** A module is registered when it has both `data` and `execute`. */
  predicate Registrable(f: CommandFile) {
    IsScript(f.fileName) && f.exported.data.Some? && f.exported.hasExecute
  }

  /** The registration loop: each registrable module is set under its data name, later files overwriting earlier ones. */
  function Register(commands: map<string, CommandModule>, files: seq<CommandFile>): map<string, CommandModule> {
    if files == [] then commands
    else
      var prev := Register(commands, files[..|files| - 1]);
      var f := files[|files| - 1];
      if Registrable(f) then prev[f.exported.data.value := f.exported] else prev
  }

  /** A name is registered exactly when it was before or some registrable file carries it. */
  lemma {:induction false} RegisteredIff(commands: map<string, CommandModule>, files: seq<CommandFile>, name: string)
    ensures name in Register(commands, files) <==>
              name in commands || exists k :: 0 <= k < |files| && Registrable(files[k]) && files[k].exported.data.value == name
  {
    if files != [] {
      var init := files[..|files| - 1];
      RegisteredIff(commands, init, name);
      assert forall k :: 0 <= k < |init| ==> init[k] == files[k];
    }
  }

  /** A registered name maps to the module of the last registrable file carrying it. */
  lemma {:induction false} LastFileWins(commands: map<string, CommandModule>, files: seq<CommandFile>, k: nat)
    requires k < |files| && Registrable(files[k])
    requires forall j :: k < j < |files| && Registrable(files[j]) ==> files[j].exported.data.value != files[k].exported.data.value
    ensures var name := files[k].exported.data.value;
            name in Register(commands, files) && Register(commands, files)[name] == files[k].exported
  {
    if k < |files| - 1 {
      var init := files[..|files| - 1];
      assert forall j :: 0 <= j < |init| ==> init[j] == files[j];
      LastFileWins(commands, init, k);
    }
  }

  /** A name that no registrable file carries keeps the module it had, or stays unregistered. */
  lemma {:induction false} UncarriedNameKept(commands: map<string, CommandModule>, files: seq<CommandFile>, name: string)
    requires forall k :: 0 <= k < |files| && Registrable(files[k]) ==> files[k].exported.data.value != name
    ensures name in Register(commands, files) <==> name in commands
    ensures name in commands ==> Register(commands, files)[name] == commands[name]
  {
    if files != [] {
      var init := files[..|files| - 1];
      assert forall j :: 0 <= j < |init| ==> init[j] == files[j];
      UncarriedNameKept(commands, init, name);
    }
  }

  // ---------------------------------------------------------------------------------------------
  // The service

  class DiscordService {
    const workerId: string
    var order: seq<string>
    var guilds: map<string, GuildEntry>
    var commands: map<string, CommandModule>

    function State(): Registry
      reads this
    {
      Registry(order, guilds)
    }

    predicate Valid()
      reads this
    {
      Wellformed(State())
    }

    /** The constructor starts with no guilds and registers the command modules found on disk. */
    constructor (workerId: string, files: seq<CommandFile>)
      ensures Valid() && State() == Registry([], map[])
      ensures this.workerId == workerId && commands == Register(map[], files)
    {
      this.workerId := workerId;
      order := [];
      guilds := map[];
      commands := map[];
      new;
      LoadCommands(files);
    }

    /** loadCommands: the registration loop over the listed files. */
    method LoadCommands(files: seq<CommandFile>)
      modifies this
      ensures commands == Register(old(commands), files)
      ensures order == old(order) && guilds == old(guilds)
    {
      var i := 0;
      while i < |files|
        invariant 0 <= i <= |files|
        invariant commands == Register(old(commands), files[..i])
        invariant order == old(order) && guilds == old(guilds)
      {
        var f := files[i];
        assert files[..i + 1][..i] == files[..i];
        if IsScript(f.fileName) && f.exported.data.Some? && f.exported.hasExecute {
          commands := commands[f.exported.data.value := f.exported];
        }
        i := i + 1;
      }
      assert files[..i] == files;
    }

    /**
     * The join event. The guild is fetched (`fetched` is its name, None when the fetch throws);
     * the entry is set with id and name only, then the guild's row is inserted for this worker.
     * Either failure is caught and logged.
     */
    method OnGuildCreate(id: string, fetched: Option<string>, table: GuildConfigTable, storeFails: bool)
      requires Valid()
      modifies this, table
      ensures Valid() && commands == old(commands)
      ensures fetched.None? ==> State() == old(State()) && table.rows == old(table.rows)
      ensures fetched.Some? ==> State() == Put(old(State()), GuildEntry(id, fetched.value, None, None))
      ensures fetched.Some? ==> table.rows == if storeFails then old(table.rows) else WithGuild(old(table.rows), id, workerId)
    {
      if fetched.None? {
        return;
      }
      var entry := GuildEntry(id, fetched.value, None, None);
      PutStores(State(), entry);
      if id !in guilds {
        order := order + [id];
      }
      guilds := guilds[id := entry];
      var _ := table.InsertGuild(id, workerId, storeFails);
    }

    /** The leave event: the entry is deleted, then the guild's row. */
    method OnGuildDelete(id: string, table: GuildConfigTable, storeFails: bool)
      requires Valid()
      modifies this, table
      ensures Valid() && commands == old(commands)
      ensures State() == Remove(old(State()), id)
      ensures table.rows == if storeFails then old(table.rows) else Without(old(table.rows), id)
    {
      RemoveDrops(State(), id);
      order := RemoveKey(order, id);
      guilds := guilds - {id};
      var _ := table.Delete(id, storeFails);
    }

    /**
     * loadGuildsFromDatabase. `selected` is the answer of the select, in the engine's order:
     * each guild the worker owns, once. `names` holds the guilds the client can fetch. A failed
     * select is caught and changes nothing.
     */
    method LoadGuildsFromDatabase(table: GuildConfigTable, selected: seq<string>, selectFails: bool, names: map<string, string>)
      requires Valid()
      requires Distinct(selected)
      requires forall k :: 0 <= k < |selected| ==> selected[k] in OwnedBy(table.rows, workerId)
      requires forall g :: g in OwnedBy(table.rows, workerId) ==> g in selected
      modifies this
      ensures Valid() && commands == old(commands)
      ensures State() == if selectFails then old(State()) else Load(old(State()), selected, table.rows, names)
      ensures selected == [] ==> State() == old(State())
    {
      if selectFails {
        return;
      }
      if |selected| == 0 {
        return;
      }
      var r := LoadPass(State(), selected, table.rows, names);
      order, guilds := r.order, r.entries;
    }

    /** handleAblyMessage: the batch is processed against every registered guild, in insertion order. */
    method HandleAblyMessage(data: seq<Item>, cache: map<string, seq<Role>>, failing: set<string>)
      returns (deliveries: seq<Delivery>, aborted: bool)
      requires Valid()
      ensures SendsOf(deliveries) == Dispatches(Values(State()), data, cache).sends
      ensures aborted == Dispatches(Values(State()), data, cache).aborted
      ensures forall k :: 0 <= k < |deliveries| ==> (deliveries[k].delivered <==> deliveries[k].send.channelId !in failing)
    {
      var values := [];
      var i := 0;
      while i < |order|
        invariant 0 <= i <= |order|
        invariant values == Values(State())[..i]
      {
        values := values + [guilds[order[i]]];
        i := i + 1;
      }
      assert values == Values(State());
      deliveries, aborted := ProcessData(values, data, cache, failing);
    }

    /**
     * interactionCreate: the command to execute, if any. Anything but a chat-input command, or a
     * name that is not registered, runs nothing.
     */
    method OnInteraction(isChatInput: bool, name: string) returns (run: Option<CommandModule>)
      ensures run.Some? <==> isChatInput && name in commands
      ensures run.Some? ==> run.value == commands[name]
    {
      if !isChatInput {
        return None;
      }
      if name !in commands {
        return None;
      }
      return Some(commands[name]);
    }
  }

  /** The loop of loadGuildsFromDatabase on the registry's value. */
  method LoadPass(r: Registry, ids: seq<string>, rows: map<string, Row>, names: map<string, string>) returns (l: Registry)
    requires Wellformed(r)
    requires forall k :: 0 <= k < |ids| ==> ids[k] in rows
    ensures l == Load(r, ids, rows, names) && Wellformed(l)
  {
    l := r;
    var i := 0;
    while i < |ids|
      invariant 0 <= i <= |ids|
      invariant l == Load(r, ids[..i], rows, names) && Wellformed(l)
    {
      var id := ids[i];
      assert ids[..i + 1][..i] == ids[..i];
      if id in names {
        PutStores(l, FromRow(id, names[id], rows[id]));
        l := Put(l, FromRow(id, names[id], rows[id]));
      }
      i := i + 1;
    }
    assert ids[..i] == ids;
  }
}
