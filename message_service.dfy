/**
 * The notification builder of MessageService: how a batch of items becomes the text sent to one
 * guild (name normalisation, role lookup, hide flag, trailing separator) and the per-guild loop
 * that decides which guilds are sent what. The Discord client is replaced by its role cache
 * (guild id to roles) and sending by a list of attempted sends.
 */
module Messaging {
  import opened Common

  /** A guild role: the mention uses its id, the lookup its display name. */
  datatype Role = Role(id: string, name: string)

  /**
   * A guild record as the per-guild loop reads it. `channelId` is None when no channel is
   * configured (also SQL NULL); `hideNonRoles` is None when the record has no such property,
   * in which case the builder's default parameter `false` applies.
   */
  datatype GuildEntry = GuildEntry(id: string, name: string, channelId: Option<string>, hideNonRoles: Option<bool>)

  /** One message handed to the (abstract) send effect. */
  datatype Send = Send(channelId: string, content: string)

  /** A send together with whether the platform accepted it; rejections are swallowed. */
  datatype Delivery = Delivery(send: Send, delivered: bool)

  /** Every attempted send of one pass over the guilds, and whether the pass was cut short by a throw. */
  datatype DispatchLog = DispatchLog(sends: seq<Send>, aborted: bool)

  // ---------------------------------------------------------------------------------------------
  // Name normalisation: `name.split(/(?=[A-Z])/).join(" ")`

  predicate IsUpper(c: char) { 'A' <= c <= 'Z' }

  function CountUpper(t: string): nat {
    if t == [] then 0 else (if IsUpper(t[0]) then 1 else 0) + CountUpper(t[1..])
  }

  /** Puts a space in front of every upper-case letter of `t`. */
  function SpaceCaps(t: string): (r: string)
    ensures |r| == |t| + CountUpper(t)
    ensures r != [] ==> !IsUpper(r[0])
  {
    if t == [] then []
    else (if IsUpper(t[0]) then [' ', t[0]] else [t[0]]) + SpaceCaps(t[1..])
  }

  /**
   * The display name an item is matched against: a space before every upper-case ASCII letter
   * except one in first position (the split never cuts at index 0).
   */
  function Normalize(name: string): string {
    if name == [] then [] else [name[0]] + SpaceCaps(name[1..])
  }

  /** Drops every space that stands right before an upper-case letter. */
  function Unsplit(r: string): string {
    if r == [] then []
    else if r[0] == ' ' && |r| > 1 && IsUpper(r[1]) then Unsplit(r[1..])
    else [r[0]] + Unsplit(r[1..])
  }

  /** The inverse of Normalize: keeps the first character, removes the inserted spaces after it. */
  function Denormalize(r: string): string {
    if r == [] then [] else [r[0]] + Unsplit(r[1..])
  }

  lemma {:induction false} UnsplitSpaceCaps(t: string)
    ensures Unsplit(SpaceCaps(t)) == t
  {
    if t != [] {
      var rest := SpaceCaps(t[1..]);
      UnsplitSpaceCaps(t[1..]);
      if IsUpper(t[0]) {
        assert SpaceCaps(t) == [' ', t[0]] + rest;
        assert ([' ', t[0]] + rest)[1..] == [t[0]] + rest;
        assert ([t[0]] + rest)[1..] == rest;
      } else {
        assert SpaceCaps(t) == [t[0]] + rest;
        assert ([t[0]] + rest)[1..] == rest;
      }
      assert t == [t[0]] + t[1..];
    }
  }

  /** Normalisation loses nothing: the original name is recovered from the normalised one. */
  lemma NormalizeRoundTrip(name: string)
    ensures Denormalize(Normalize(name)) == name
  {
    if name != [] {
      UnsplitSpaceCaps(name[1..]);
      assert ([name[0]] + SpaceCaps(name[1..]))[1..] == SpaceCaps(name[1..]);
    }
  }

  /** Two different item names never normalise to the same display name. */
  lemma NormalizeInjective(a: string, b: string)
    requires Normalize(a) == Normalize(b)
    ensures a == b
  {
    NormalizeRoundTrip(a);
    NormalizeRoundTrip(b);
  }

  lemma {:induction false} CountUpperZero(t: string)
    ensures CountUpper(t) == 0 <==> forall i :: 0 <= i < |t| ==> !IsUpper(t[i])
  {
    if t != [] {
      CountUpperZero(t[1..]);
      assert forall i :: 1 <= i < |t| ==> t[i] == t[1..][i - 1];
    }
  }

  lemma {:induction false} SpaceCapsIdentity(t: string)
    requires CountUpper(t) == 0
    ensures SpaceCaps(t) == t
  {
    if t != [] {
      SpaceCapsIdentity(t[1..]);
    }
  }

  /** A name is left as it is exactly when no upper-case letter follows its first character. */
  lemma NormalizeUnchangedIff(name: string)
    ensures Normalize(name) == name <==> forall i :: 0 < i < |name| ==> !IsUpper(name[i])
  {
    if name != [] {
      var t := name[1..];
      CountUpperZero(t);
      assert forall i :: 0 < i < |name| ==> name[i] == t[i - 1];
      if CountUpper(t) == 0 {
        SpaceCapsIdentity(t);
      }
    }
  }

  /** Normalisation works piece by piece. */
  lemma {:induction false} SpaceCapsAppend(a: string, b: string)
    ensures SpaceCaps(a + b) == SpaceCaps(a) + SpaceCaps(b)
  {
    if a != [] {
      SpaceCapsAppend(a[1..], b);
      var head := if IsUpper(a[0]) then [' ', a[0]] else [a[0]];
      assert (a + b)[0] == a[0];
      assert (a + b)[1..] == a[1..] + b;
      assert SpaceCaps(a + b) == head + SpaceCaps(a[1..] + b);
      assert SpaceCaps(a) == head + SpaceCaps(a[1..]);
    } else {
      assert a + b == b;
    }
  }

  /** A capitalised word with no other capital gets one space in front. */
  lemma SpaceCapsWord(b: string)
    requires b != [] && IsUpper(b[0])
    requires forall i :: 0 < i < |b| ==> !IsUpper(b[i])
    ensures SpaceCaps(b) == [' '] + b
  {
    NormalizeUnchangedIff(b);
    var rest := SpaceCaps(b[1..]);
    assert [b[0]] + rest == b;
    assert SpaceCaps(b) == [' ', b[0]] + rest;
    assert [' ', b[0]] + rest == [' '] + ([b[0]] + rest);
  }

  /** A name made of two capitalised words is split into the two words. */
  lemma NormalizeTwoWords(a: string, b: string)
    requires a != [] && b != [] && IsUpper(b[0])
    requires forall i :: 0 < i < |a| ==> !IsUpper(a[i])
    requires forall i :: 0 < i < |b| ==> !IsUpper(b[i])
    ensures Normalize(a + b) == a + " " + b
  {
    var t := a[1..];
    NormalizeUnchangedIff(a);
    assert [a[0]] + SpaceCaps(t) == a;
    SpaceCapsWord(b);
    SpaceCapsAppend(t, b);
    assert (a + b)[0] == a[0] && (a + b)[1..] == t + b;
    assert Normalize(a + b) == [a[0]] + (SpaceCaps(t) + ([' '] + b));
    Associative([a[0]], SpaceCaps(t), [' '] + b);
  }

  // ---------------------------------------------------------------------------------------------
  // Content of one guild's message

  /** `roles.cache.find(r => r.name === name)`: the first role with that display name. */
  function FindRole(roles: seq<Role>, name: string): (r: Option<Role>)
    ensures r.Some? ==> r.value in roles && r.value.name == name
  {
    if roles == [] then None
    else if roles[0].name == name then Some(roles[0])
    else FindRole(roles[1..], name)
  }

  /** The lookup fails only when no role has that name, and otherwise returns the first one that has it. */
  lemma {:induction false} FindRoleFirst(roles: seq<Role>, name: string)
    ensures FindRole(roles, name).None? <==> forall k :: 0 <= k < |roles| ==> roles[k].name != name
    ensures FindRole(roles, name).Some? ==>
              exists k :: 0 <= k < |roles| && roles[k] == FindRole(roles, name).value &&
                          forall j :: 0 <= j < k ==> roles[j].name != name
  {
    if roles != [] && roles[0].name != name {
      FindRoleFirst(roles[1..], name);
      assert forall k :: 1 <= k < |roles| ==> roles[k] == roles[1..][k - 1];
      if FindRole(roles[1..], name).Some? {
        var k :| 0 <= k < |roles[1..]| && roles[1..][k] == FindRole(roles[1..], name).value &&
                 forall j :: 0 <= j < k ==> roles[1..][j].name != name;
        assert roles[k + 1] == FindRole(roles, name).value;
        assert forall j :: 0 <= j < k + 1 ==> roles[j].name != name;
      }
    }
  }

  /** Whether an item's normalised name is a role of the guild. */
  predicate HasRole(item: Item, roles: seq<Role>) {
    FindRole(roles, Normalize(item.name)).Some?
  }

  /** The piece one item contributes: a role mention, the plain name, or nothing when hidden. */
  function Fragment(item: Item, roles: seq<Role>, hideItems: bool): string {
    var name := Normalize(item.name);
    match FindRole(roles, name)
    case Some(role) => " <@&" + role.id + ">  " + StockText(item.stock) + " |"
    case None => if hideItems then "" else " " + name + "  " + StockText(item.stock) + " |"
  }

  /** Every piece is empty or ends in the separator `|`; a shown piece is never empty. */
  lemma FragmentShape(item: Item, roles: seq<Role>, hideItems: bool)
    ensures var f := Fragment(item, roles, hideItems); f == [] || (|f| >= 2 && f[|f| - 1] == '|')
    ensures Fragment(item, roles, hideItems) == [] <==> hideItems && !HasRole(item, roles)
  {}

  /** `f` applied to every element, in order. */
  function Mapped<T, U>(xs: seq<T>, f: T -> U): seq<U> {
    seq(|xs|, k requires 0 <= k < |xs| => f(xs[k]))
  }

  lemma MappedAppend<T, U>(a: seq<T>, b: seq<T>, f: T -> U)
    ensures Mapped(a + b, f) == Mapped(a, f) + Mapped(b, f)
  {}

  /** The piece of each item, for one guild's roles and hide flag. */
  function FragmentOf(roles: seq<Role>, hideItems: bool): Item -> string {
    x => Fragment(x, roles, hideItems)
  }

  /** The pieces of the items, one per item, in item order. */
  function Pieces(items: seq<Item>, roles: seq<Role>, hideItems: bool): seq<string> {
    Mapped(items, FragmentOf(roles, hideItems))
  }

  /** The concatenation of a list of pieces, left to right. */
  function Concat(ps: seq<string>): string {
    if ps == [] then [] else Concat(ps[..|ps| - 1]) + ps[|ps| - 1]
  }

  lemma Associative(x: string, y: string, z: string)
    ensures (x + y) + z == x + (y + z)
  {}

  /** Concatenation distributes over joining two lists of pieces. */
  lemma {:induction false} ConcatAppend(a: seq<string>, b: seq<string>)
    ensures Concat(a + b) == Concat(a) + Concat(b)
    decreases |b|
  {
    if b == [] {
      assert a + b == a;
    } else {
      var b', last := b[..|b| - 1], b[|b| - 1];
      ConcatAppend(a, b');
      assert (a + b)[..|a + b| - 1] == a + b';
      Associative(Concat(a), Concat(b'), last);
    }
  }

  /** The concatenation is empty exactly when every piece is. */
  lemma {:induction false} ConcatEmptyIff(ps: seq<string>)
    ensures Concat(ps) == [] <==> forall k :: 0 <= k < |ps| ==> ps[k] == []
  {
    if ps != [] {
      var init := ps[..|ps| - 1];
      ConcatEmptyIff(init);
      assert Concat(ps) == Concat(init) + ps[|ps| - 1];
      assert forall k :: 0 <= k < |init| ==> init[k] == ps[k];
    }
  }

  /** When every piece is empty or ends in `|`, so does their concatenation. */
  lemma {:induction false} ConcatEndsWithBar(ps: seq<string>)
    requires forall k :: 0 <= k < |ps| ==> ps[k] == [] || (|ps[k]| >= 2 && ps[k][|ps[k]| - 1] == '|')
    ensures Concat(ps) == [] || (|Concat(ps)| >= 2 && Concat(ps)[|Concat(ps)| - 1] == '|')
  {
    if ps != [] {
      ConcatEndsWithBar(ps[..|ps| - 1]);
    }
  }

  /** The text built for a batch before its last character is cut. */
  function Fragments(items: seq<Item>, roles: seq<Role>, hideItems: bool): string {
    Concat(Pieces(items, roles, hideItems))
  }

  /** Building the text of `a + b` is building `a`, then `b`: items never affect one another. */
  lemma FragmentsAppend(a: seq<Item>, b: seq<Item>, roles: seq<Role>, hideItems: bool)
    ensures Fragments(a + b, roles, hideItems) == Fragments(a, roles, hideItems) + Fragments(b, roles, hideItems)
  {
    MappedAppend(a, b, FragmentOf(roles, hideItems));
    ConcatAppend(Pieces(a, roles, hideItems), Pieces(b, roles, hideItems));
  }

  /** One more item appends its piece. */
  lemma FragmentsSnoc(a: seq<Item>, x: Item, roles: seq<Role>, hideItems: bool)
    ensures Fragments(a + [x], roles, hideItems) == Fragments(a, roles, hideItems) + Fragment(x, roles, hideItems)
  {
    var f := FragmentOf(roles, hideItems);
    MappedAppend(a, [x], f);
    assert Mapped([x], f) == [f(x)];
    ConcatAppend(Mapped(a, f), [f(x)]);
    assert Concat([f(x)]) == f(x) by {
      assert [f(x)][..0] == [];
    }
  }

  /** The text of the first i + 1 items is that of the first i followed by the piece of item i. */
  lemma FragmentsPrefix(data: seq<Item>, i: nat, roles: seq<Role>, hideItems: bool)
    requires i < |data|
    ensures Fragments(data[..i + 1], roles, hideItems) == Fragments(data[..i], roles, hideItems) + Fragment(data[i], roles, hideItems)
  {
    assert data[..i] + [data[i]] == data[..i + 1];
    FragmentsSnoc(data[..i], data[i], roles, hideItems);
  }

  /** `message.slice(0, -1)` */
  function DropLast(s: string): string {
    if s == [] then [] else s[..|s| - 1]
  }

  /** The text sent to a guild: the pieces with their final `|` removed. */
  function Content(items: seq<Item>, roles: seq<Role>, hideItems: bool): string {
    DropLast(Fragments(items, roles, hideItems))
  }

  /** The text of a batch is empty or ends in the separator `|`. */
  lemma FragmentsShape(items: seq<Item>, roles: seq<Role>, hideItems: bool)
    ensures var m := Fragments(items, roles, hideItems); m == [] || (|m| >= 2 && m[|m| - 1] == '|')
  {
    var ps := Pieces(items, roles, hideItems);
    forall k | 0 <= k < |ps|
      ensures ps[k] == [] || (|ps[k]| >= 2 && ps[k][|ps[k]| - 1] == '|')
    {
      FragmentShape(items[k], roles, hideItems);
    }
    ConcatEndsWithBar(ps);
  }

  /** The character cut by `slice(0, -1)` is always the separator of the last shown item. */
  lemma ContentDropsBar(items: seq<Item>, roles: seq<Role>, hideItems: bool)
    ensures Fragments(items, roles, hideItems) == [] ==> Content(items, roles, hideItems) == []
    ensures Fragments(items, roles, hideItems) != [] ==>
              Content(items, roles, hideItems) != [] && Fragments(items, roles, hideItems) == Content(items, roles, hideItems) + "|"
  {
    var m := Fragments(items, roles, hideItems);
    FragmentsShape(items, roles, hideItems);
    if m != [] {
      assert m == m[..|m| - 1] + [m[|m| - 1]];
    }
  }

  /** The items that match a role of the guild, in their order. */
  function Matched(items: seq<Item>, roles: seq<Role>): (r: seq<Item>)
    ensures forall x :: x in r <==> x in items && HasRole(x, roles)
  {
    if items == [] then []
    else
      var last := items[|items| - 1];
      Matched(items[..|items| - 1], roles) + (if HasRole(last, roles) then [last] else [])
  }

  /** The hide flag only blanks the pieces of items that match no role. */
  lemma FragmentHidden(x: Item, roles: seq<Role>)
    ensures Fragment(x, roles, true) == if HasRole(x, roles) then Fragment(x, roles, false) else ""
  {}

  /** With the hide flag on, a batch reads as its role-matched items alone with the flag off. */
  lemma {:induction false} HiddenKeepsOnlyMatched(items: seq<Item>, roles: seq<Role>)
    ensures Fragments(items, roles, true) == Fragments(Matched(items, roles), roles, false)
  {
    if items == [] {
      assert Pieces(items, roles, true) == [];
      assert Pieces(Matched(items, roles), roles, false) == [];
    } else {
      var init, last := items[..|items| - 1], items[|items| - 1];
      assert init + [last] == items;
      HiddenKeepsOnlyMatched(init, roles);
      FragmentsSnoc(init, last, roles, true);
      FragmentHidden(last, roles);
      if HasRole(last, roles) {
        FragmentsSnoc(Matched(init, roles), last, roles, false);
      } else {
        assert Matched(items, roles) == Matched(init, roles) + [];
        assert Matched(init, roles) + [] == Matched(init, roles);
      }
    }
  }

  /**
   * The message is empty exactly when nothing is shown: no items at all, or, with the hide flag,
   * no item whose normalised name is a role.
   */
  lemma ContentEmptyIff(items: seq<Item>, roles: seq<Role>, hideItems: bool)
    ensures Content(items, roles, hideItems) == [] <==> (if hideItems then Matched(items, roles) else items) == []
  {
    var shown := if hideItems then Matched(items, roles) else items;
    if hideItems {
      HiddenKeepsOnlyMatched(items, roles);
    }
    var ps := Pieces(shown, roles, false);
    ConcatEmptyIff(ps);
    ContentDropsBar(items, roles, hideItems);
    if shown != [] {
      FragmentShape(shown[0], roles, false);
      assert ps[0] != [];
    }
  }

  /** The body of buildContent's loop for one item: what it appends to `message`. */
  method ItemPiece(item: Item, roles: seq<Role>, hideItems: bool) returns (piece: string)
    ensures piece == Fragment(item, roles, hideItems)
  {
    var name := Normalize(item.name);
    var role := FindRole(roles, name);
    piece := "";
    if role.Some? {
      piece := " <@&" + role.value.id + ">  " + StockText(item.stock) + " |";
    } else if !hideItems {
      piece := " " + name + "  " + StockText(item.stock) + " |";
    }
  }

  /**
   * buildContent: walks the items once, appending each one's piece to `message`, then cuts the
   * last character. `guildRoles` is None when the guild is not in the client's cache; reading
   * its roles then throws at the first item, which is reported as None.
   */
  method BuildContent(data: seq<Item>, guildRoles: Option<seq<Role>>, hideItems: Option<bool>) returns (content: Option<string>)
    ensures content.None? <==> data != [] && guildRoles.None?
    ensures content.Some? ==> content.value == Content(data, guildRoles.GetOr([]), hideItems.GetOr(false))
  {
    var hidden := hideItems.GetOr(false);
    ghost var roles := guildRoles.GetOr([]);
    var message := "";
    var i := 0;
    assert Fragments(data[..0], roles, hidden) == "" by {
      assert data[..0] == [];
      assert Pieces([], roles, hidden) == [];
    }
    while i < |data|
      invariant 0 <= i <= |data|
      invariant i > 0 ==> guildRoles.Some?
      invariant message == Fragments(data[..i], roles, hidden)
    {
      if guildRoles.None? {
        return None;
      }
      var piece := ItemPiece(data[i], guildRoles.value, hidden);
      FragmentsPrefix(data, i, roles, hidden);
      message := message + piece;
      i := i + 1;
    }
    assert data[..i] == data;
    assert message == Fragments(data, roles, hidden);
    content := Some(DropLast(message));
  }

  // ---------------------------------------------------------------------------------------------
  // The per-guild loop of processData

  /** `guild.channelId` is truthy. */
  predicate HasChannel(g: GuildEntry) {
    g.channelId.Some? && g.channelId.value != ""
  }

  /** The content a guild is sent, when it is sent anything. */
  function ContentFor(g: GuildEntry, data: seq<Item>, cache: map<string, seq<Role>>): string {
    Content(data, if g.id in cache then cache[g.id] else [], g.hideNonRoles.GetOr(false))
  }

  /** A guild is sent its message when it has a channel and its message is not empty. */
  predicate Eligible(g: GuildEntry, data: seq<Item>, cache: map<string, seq<Role>>) {
    HasChannel(g) && ContentFor(g, data, cache) != []
  }

  /** What the loop does for one guild: it throws, skips the guild, or sends it one message. */
  datatype Outcome = Throw | Skip | Deliver(send: Send)

  /**
   * One guild's outcome. Building the content reads the guild from the client's cache first,
   * so a guild missing from the cache throws as soon as there is an item; only then are the
   * channel and the emptiness of the content checked.
   */
  function OutcomeOf(g: GuildEntry, data: seq<Item>, cache: map<string, seq<Role>>): Outcome {
    if data != [] && g.id !in cache then Throw
    else if Eligible(g, data, cache) then Deliver(Send(g.channelId.value, ContentFor(g, data, cache)))
    else Skip
  }

  /** The log after one more outcome: nothing changes once cut short, a throw cuts it short, a send is appended. */
  function Step(prev: DispatchLog, o: Outcome): DispatchLog {
    if prev.aborted then prev
    else match o
      case Throw => prev.(aborted := true)
      case Skip => prev
      case Deliver(s) => prev.(sends := prev.sends + [s])
  }

  /** The log of a pass that meets these outcomes in order; the first throw ends the pass. */
  function Pass(os: seq<Outcome>): DispatchLog {
    if os == [] then DispatchLog([], false) else Step(Pass(os[..|os| - 1]), os[|os| - 1])
  }

  /** A pass is cut short exactly when some outcome is a throw. */
  lemma {:induction false} PassAbortIff(os: seq<Outcome>)
    ensures Pass(os).aborted <==> exists k :: 0 <= k < |os| && os[k].Throw?
  {
    if os != [] {
      var init := os[..|os| - 1];
      PassAbortIff(init);
      assert forall k :: 0 <= k < |init| ==> init[k] == os[k];
    }
  }

  /** Every logged send comes from a Deliver outcome. */
  lemma {:induction false} PassSendsDelivered(os: seq<Outcome>)
    ensures forall s :: s in Pass(os).sends ==> Deliver(s) in os
  {
    if os != [] {
      var init := os[..|os| - 1];
      PassSendsDelivered(init);
      assert forall o :: o in init ==> o in os;
    }
  }

  /** A pass that is not cut short logs the send of every Deliver outcome. */
  lemma {:induction false} PassDeliversAll(os: seq<Outcome>)
    ensures !Pass(os).aborted ==> forall k :: 0 <= k < |os| && os[k].Deliver? ==> os[k].send in Pass(os).sends
  {
    if os != [] {
      var init := os[..|os| - 1];
      PassDeliversAll(init);
      assert forall k :: 0 <= k < |init| ==> init[k] == os[k];
    }
  }

  /** No outcome disturbs another: the pass over `a + b` is the pass over `a`, then over `b`, unless `a` threw. */
  lemma {:induction false} PassAppend(a: seq<Outcome>, b: seq<Outcome>)
    ensures var ra, rb := Pass(a), Pass(b);
            Pass(a + b) == if ra.aborted then ra else DispatchLog(ra.sends + rb.sends, rb.aborted)
    decreases |b|
  {
    if b == [] {
      assert a + b == a;
    } else {
      var b' := b[..|b| - 1];
      PassAppend(a, b');
      assert (a + b)[..|a + b| - 1] == a + b';
      assert (a + b)[|a + b| - 1] == b[|b| - 1];
    }
  }

  /** The outcomes of the guilds, in registry order. */
  function Outcomes(guilds: seq<GuildEntry>, data: seq<Item>, cache: map<string, seq<Role>>): seq<Outcome> {
    Mapped(guilds, OutcomeFor(data, cache))
  }

  /** The outcome of each guild, for one batch and one cache. */
  function OutcomeFor(data: seq<Item>, cache: map<string, seq<Role>>): GuildEntry -> Outcome {
    g => OutcomeOf(g, data, cache)
  }

  /** The sends of one pass over `guilds`, in guild order; a throw ends the pass. */
  function Dispatches(guilds: seq<GuildEntry>, data: seq<Item>, cache: map<string, seq<Role>>): DispatchLog {
    Pass(Outcomes(guilds, data, cache))
  }

  /** The pass is cut short exactly when there are items and some guild is missing from the cache. */
  lemma DispatchAbortIff(guilds: seq<GuildEntry>, data: seq<Item>, cache: map<string, seq<Role>>)
    ensures Dispatches(guilds, data, cache).aborted <==> data != [] && exists k :: 0 <= k < |guilds| && guilds[k].id !in cache
  {
    var os := Outcomes(guilds, data, cache);
    PassAbortIff(os);
    assert forall k :: 0 <= k < |guilds| ==> (os[k].Throw? <==> data != [] && guilds[k].id !in cache);
  }

  /**
   * Sends go only to guilds with a channel and a non-empty message, carrying that message; and a
   * pass that is not cut short sends to every such guild.
   */
  lemma SendsExactlyToEligible(guilds: seq<GuildEntry>, data: seq<Item>, cache: map<string, seq<Role>>)
    ensures forall s :: s in Dispatches(guilds, data, cache).sends ==>
              exists g :: g in guilds && Eligible(g, data, cache) && s == Send(g.channelId.value, ContentFor(g, data, cache))
    ensures !Dispatches(guilds, data, cache).aborted ==>
              forall g :: g in guilds && Eligible(g, data, cache) ==> Send(g.channelId.value, ContentFor(g, data, cache)) in Dispatches(guilds, data, cache).sends
  {
    var os := Outcomes(guilds, data, cache);
    PassSendsDelivered(os);
    PassDeliversAll(os);
    forall s | s in Pass(os).sends
      ensures exists g :: g in guilds && Eligible(g, data, cache) && s == Send(g.channelId.value, ContentFor(g, data, cache))
    {
      var k :| 0 <= k < |os| && os[k] == Deliver(s);
      assert guilds[k] in guilds;
    }
    if !Pass(os).aborted {
      forall g | g in guilds && Eligible(g, data, cache)
        ensures Send(g.channelId.value, ContentFor(g, data, cache)) in Pass(os).sends
      {
        var k :| 0 <= k < |guilds| && guilds[k] == g;
        DispatchAbortIff(guilds, data, cache);
        assert os[k].Deliver?;
      }
    }
  }

  /** An empty batch sends nothing and cannot throw. */
  lemma {:induction false} EmptyBatchSendsNothing(guilds: seq<GuildEntry>, cache: map<string, seq<Role>>)
    ensures Dispatches(guilds, [], cache) == DispatchLog([], false)
  {
    var os := Outcomes(guilds, [], cache);
    assert forall k :: 0 <= k < |os| ==> os[k] == Skip by {
      forall k | 0 <= k < |os| ensures os[k] == Skip {
        ContentEmptyIff([], if guilds[k].id in cache then cache[guilds[k].id] else [], guilds[k].hideNonRoles.GetOr(false));
      }
    }
    PassAllSkip(os);
  }

  lemma {:induction false} PassAllSkip(os: seq<Outcome>)
    requires forall k :: 0 <= k < |os| ==> os[k] == Skip
    ensures Pass(os) == DispatchLog([], false)
  {
    if os != [] {
      PassAllSkip(os[..|os| - 1]);
    }
  }

  /** Guilds are handled one after another. */
  lemma DispatchesSnoc(guilds: seq<GuildEntry>, g: GuildEntry, data: seq<Item>, cache: map<string, seq<Role>>)
    ensures Dispatches(guilds + [g], data, cache) == Step(Dispatches(guilds, data, cache), OutcomeOf(g, data, cache))
  {
    var f := OutcomeFor(data, cache);
    MappedAppend(guilds, [g], f);
    var os := Outcomes(guilds + [g], data, cache);
    assert os[..|os| - 1] == Outcomes(guilds, data, cache);
  }

  /** Splitting the guild list splits the pass, as for outcomes. */
  lemma DispatchesAppend(a: seq<GuildEntry>, b: seq<GuildEntry>, data: seq<Item>, cache: map<string, seq<Role>>)
    ensures var ra, rb := Dispatches(a, data, cache), Dispatches(b, data, cache);
            Dispatches(a + b, data, cache) == if ra.aborted then ra else DispatchLog(ra.sends + rb.sends, rb.aborted)
  {
    MappedAppend(a, b, OutcomeFor(data, cache));
    PassAppend(Outcomes(a, data, cache), Outcomes(b, data, cache));
  }

  /** The pass over the first i + 1 guilds continues the pass over the first i with guild i. */
  lemma DispatchesPrefix(guilds: seq<GuildEntry>, i: nat, data: seq<Item>, cache: map<string, seq<Role>>)
    requires i < |guilds|
    ensures Dispatches(guilds[..i + 1], data, cache) == Step(Dispatches(guilds[..i], data, cache), OutcomeOf(guilds[i], data, cache))
  {
    DispatchesSnoc(guilds[..i], guilds[i], data, cache);
    assert guilds[..i] + [guilds[i]] == guilds[..i + 1];
  }

  /** Once a prefix of the guilds has thrown, the rest of them change nothing. */
  lemma AbortedPrefix(guilds: seq<GuildEntry>, i: nat, data: seq<Item>, cache: map<string, seq<Role>>)
    requires i <= |guilds| && Dispatches(guilds[..i], data, cache).aborted
    ensures Dispatches(guilds, data, cache) == Dispatches(guilds[..i], data, cache)
  {
    DispatchesAppend(guilds[..i], guilds[i..], data, cache);
    assert guilds[..i] + guilds[i..] == guilds;
  }

  function SendsOf(ds: seq<Delivery>): seq<Send> {
    if ds == [] then [] else SendsOf(ds[..|ds| - 1]) + [ds[|ds| - 1].send]
  }

  lemma SendsOfSnoc(ds: seq<Delivery>, d: Delivery)
    ensures SendsOf(ds + [d]) == SendsOf(ds) + [d.send]
  {
    assert (ds + [d])[..|ds|] == ds;
  }

  /** Each delivery is marked delivered exactly when its channel is not one that rejects sends. */
  predicate MarkedBy(ds: seq<Delivery>, failing: set<string>) {
    forall k :: 0 <= k < |ds| ==> (ds[k].delivered <==> ds[k].send.channelId !in failing)
  }

  /**
   * One guild's turn in processData: build its content (which throws for a guild missing from
   * the cache), then skip the guild when it has no channel or the content is empty, else send.
   */
  method GuildTurn(guild: GuildEntry, data: seq<Item>, cache: map<string, seq<Role>>) returns (o: Outcome)
    ensures o == OutcomeOf(guild, data, cache)
  {
    var content := BuildContent(data, if guild.id in cache then Some(cache[guild.id]) else None, guild.hideNonRoles);
    if content.None? {
      return Throw;
    }
    if !HasChannel(guild) || content.value == [] {
      return Skip;
    }
    return Deliver(Send(guild.channelId.value, content.value));
  }

  /**
   * processData: for each guild build its content, skip it when it has no channel or nothing to
   * say, otherwise send. `failing` is the set of channels whose send the platform rejects; a
   * rejection is swallowed, so the sends attempted do not depend on it.
   */
  method ProcessData(guilds: seq<GuildEntry>, data: seq<Item>, cache: map<string, seq<Role>>, failing: set<string>)
    returns (deliveries: seq<Delivery>, aborted: bool)
    ensures SendsOf(deliveries) == Dispatches(guilds, data, cache).sends
    ensures aborted == Dispatches(guilds, data, cache).aborted
    ensures MarkedBy(deliveries, failing)
  {
    deliveries, aborted := [], false;
    var i := 0;
    assert guilds[..0] == [];
    while i < |guilds|
      invariant 0 <= i <= |guilds|
      invariant Dispatches(guilds[..i], data, cache) == DispatchLog(SendsOf(deliveries), false)
      invariant MarkedBy(deliveries, failing)
    {
      var guild := guilds[i];
      DispatchesPrefix(guilds, i, data, cache);
      var o := GuildTurn(guild, data, cache);
      match o {
        case Throw =>
          aborted := true;
          AbortedPrefix(guilds, i + 1, data, cache);
          return;
        case Skip =>
        case Deliver(send) =>
          var d := Delivery(send, send.channelId !in failing);
          SendsOfSnoc(deliveries, d);
          deliveries := deliveries + [d];
      }
      i := i + 1;
    }
    assert guilds[..i] == guilds;
  }
}
