/**
 * The `/stream` slash command and the buffer behind it: every event of the feed is put at the
 * front of a list of at most ten recent events; `status` reports how many there are and `latest`
 * shows the first few, numbered, in an embed description cut to Discord's limit.
 */
module StreamCommand {
  import opened Common

  /** One feed event, by its pretty-printed JSON text. */
  datatype Event = Event(json: string)

  /** The buffer keeps at most this many events. */
  const Capacity := 10

  /** The longest description an embed takes, and the length kept when cutting. */
  const DescriptionLimit := 4096
  const KeptLength := 4090

  /** The first `n` elements, or all of them when there are fewer. */
  function Take<T>(s: seq<T>, n: nat): (r: seq<T>)
    ensures |r| == if |s| <= n then |s| else n
    ensures forall i :: 0 <= i < |r| ==> r[i] == s[i]
  {
    if |s| <= n then s else s[..n]
  }

  /** The buffer after one event: put in front, and the oldest dropped when there are eleven. */
  function Pushed(buf: seq<Event>, e: Event): seq<Event> {
    var grown := [e] + buf;
    if |grown| > Capacity then grown[..|grown| - 1] else grown
  }

  /** The new event is first, the others follow in their order, and only the oldest beyond ten is lost. */
  lemma PushedNewestFirst(buf: seq<Event>, e: Event)
    requires |buf| <= Capacity
    ensures var r := Pushed(buf, e);
            |r| <= Capacity && |r| == (if |buf| < Capacity then |buf| + 1 else Capacity) &&
            r[0] == e && r[1..] == buf[..|r| - 1]
  {}

  function Reversed<T>(s: seq<T>): (r: seq<T>)
    ensures |r| == |s|
  {
    if s == [] then [] else Reversed(s[1..]) + [s[0]]
  }

  /** The buffer after the events `es`, received in that order. */
  function AfterAll(buf: seq<Event>, es: seq<Event>): seq<Event> {
    if es == [] then buf else Pushed(AfterAll(buf, es[..|es| - 1]), es[|es| - 1])
  }

  /** Taking from the front does not depend on what lies beyond the part taken. */
  lemma TakeCons<T>(x: T, s: seq<T>, n: nat)
    requires n >= 1
    ensures Take([x] + Take(s, n - 1), n) == Take([x] + s, n)
  {}

  lemma {:induction false} ReversedSnoc<T>(s: seq<T>, x: T)
    ensures Reversed(s + [x]) == [x] + Reversed(s)
  {
    if s != [] {
      ReversedSnoc(s[1..], x);
      assert (s + [x])[1..] == s[1..] + [x];
    }
  }

  /** After any run of events the buffer holds the ten most recent ones, newest first. */
  lemma {:induction false} AfterAllIsMostRecent(buf: seq<Event>, es: seq<Event>)
    requires |buf| <= Capacity
    ensures AfterAll(buf, es) == Take(Reversed(es) + buf, Capacity)
  {
    if es == [] {
    } else {
      var init, e := es[..|es| - 1], es[|es| - 1];
      AfterAllIsMostRecent(buf, init);
      var prev := AfterAll(buf, init);
      assert prev == Take(Reversed(init) + buf, Capacity);
      assert Pushed(prev, e) == Take([e] + prev, Capacity);
      TakeCons(e, Reversed(init) + buf, Capacity);
      assert init + [e] == es;
      ReversedSnoc(init, e);
      assert [e] + (Reversed(init) + buf) == Reversed(es) + buf;
    }
  }

  // ---------------------------------------------------------------------------------------------
  // latest

  /** `getNumber('count') || 5`: a missing count, or 0, means five. */
  function EffectiveCount(count: Option<int>): int {
    if count.None? || count.value == 0 then 5 else count.value
  }

  /** Where `slice(0, n)` ends on a list of `len` elements: a negative end counts from the back. */
  function SliceEnd(len: nat, n: int): (end: nat)
    ensures end <= len
  {
    if n < 0 then (if len + n < 0 then 0 else len + n)
    else if n < len then n else len
  }

  /** One numbered event: `**i.**` and the event's JSON in a json code block. */
  function Entry(i: nat, e: Event): string {
    "**" + NatToString(i) + ".** ```json\n" + e.json + "\n```"
  }

  /** The entries of `events`, numbered from `first`. */
  function Entries(events: seq<Event>, first: nat): seq<string>
    decreases |events|
  {
    if events == [] then [] else [Entry(first, events[0])] + Entries(events[1..], first + 1)
  }

  /** `join('\n')` */
  function Join(ps: seq<string>): string {
    if ps == [] then "" else if |ps| == 1 then ps[0] else ps[0] + "\n" + Join(ps[1..])
  }

  /** The description: cut to its first 4090 characters and an ellipsis when longer than 4096. */
  function Truncate(s: string): string {
    if |s| > DescriptionLimit then s[..KeptLength] + "..." else s
  }

  /** Entry k is numbered k + 1 (counting from `first`) and holds the k-th event. */
  lemma {:induction false} EntriesNumbered(events: seq<Event>, first: nat)
    ensures |Entries(events, first)| == |events|
    ensures forall k :: 0 <= k < |events| ==> Entries(events, first)[k] == Entry(first + k, events[k])
    decreases |events|
  {
    if events != [] {
      EntriesNumbered(events[1..], first + 1);
    }
  }

  /** An entry's number is a run of digits that reads back as the number. */
  lemma EntryNumberReadsBack(i: nat, e: Event)
    ensures var d := NatToString(i);
            Entry(i, e)[..2] == "**" && Entry(i, e)[2..2 + |d|] == d &&
            (forall c :: 0 <= c < |d| ==> IsDigit(d[c])) && ParseNat(d) == i
  {
    ParseNatToString(i);
  }

  /** A description never exceeds the limit, and one within it is left unchanged. */
  lemma TruncateBounds(s: string)
    ensures |Truncate(s)| <= DescriptionLimit
    ensures Truncate(s) == s <==> |s| <= DescriptionLimit
    ensures |s| > DescriptionLimit ==> Truncate(s)[..KeptLength] == s[..KeptLength] && Truncate(s)[KeptLength..] == "..."
  {}

  /** What `/stream` answers. */
  datatype Reply = StatusReply(recentEvents: string) | NoEvents | EventsReply(description: string)

  datatype Subcommand = Status | Latest(count: Option<int>) | Other

  /**
   * For the counts the command's option allows (1 to 10, or none), `latest` shows the first
   * min(n, length) events, and says there are none exactly when the buffer is empty.
   */
  lemma LatestShowsFirst(len: nat, count: Option<int>)
    requires count.None? || 1 <= count.value <= Capacity
    ensures EffectiveCount(count) == if count.None? then 5 else count.value
    ensures var n := EffectiveCount(count);
            1 <= n <= Capacity && SliceEnd(len, n) == (if n < len then n else len) &&
            (SliceEnd(len, n) == 0 <==> len == 0)
  {}

  /** The status reply's number reads back as the buffer's length. */
  lemma StatusReadsBack(len: nat)
    ensures forall c :: 0 <= c < |NatToString(len)| ==> IsDigit(NatToString(len)[c])
    ensures ParseNat(NatToString(len)) == len
  {
    ParseNatToString(len);
  }

  // ---------------------------------------------------------------------------------------------
  // The buffer and the command

  class RecentEvents {
    var events: seq<Event>

    predicate Valid()
      reads this
    {
      |events| <= Capacity
    }

    constructor ()
      ensures Valid() && events == []
    {
      events := [];
    }

    /** The feed listener: `unshift`, then `pop` when the buffer has grown past ten. */
    method Push(e: Event)
      requires Valid()
      modifies this
      ensures Valid()
      ensures events == Pushed(old(events), e)
    {
      events := [e] + events;
      if |events| > Capacity {
        events := events[..|events| - 1];
      }
    }

    /**
     * execute. `status` reports the buffer's length; `latest` shows the events up to the slice
     * end, or says there are none; any other subcommand answers nothing.
     */
    function Execute(sub: Subcommand): (r: Option<Reply>)
      reads this
      ensures sub.Other? <==> r.None?
      ensures sub.Status? ==> r == Some(StatusReply(NatToString(|events|)))
      ensures sub.Latest? ==>
                var end := SliceEnd(|events|, EffectiveCount(sub.count));
                (end == 0 <==> r == Some(NoEvents)) &&
                (end > 0 ==> r == Some(EventsReply(Truncate(Join(Entries(events[..end], 1))))))
    {
      match sub
      case Status => Some(StatusReply(NatToString(|events|)))
      case Latest(count) =>
        var shown := events[..SliceEnd(|events|, EffectiveCount(count))];
        if |shown| == 0 then Some(NoEvents) else Some(EventsReply(Truncate(Join(Entries(shown, 1)))))
      case Other => None
    }
  }
}
