/**
 * The stream listener: the restock diff over `timeData` for a `shops` event, the weather change
 * detector for a `weather` event, and the start / retry / stop life cycle around the event source.
 *
 * The event source, the reconnect timer and `JSON.parse` are abstract: a parsed event is an input
 * (`Malformed` when parsing throws), the source is a three-state value and the timer a count of
 * pending reconnects. Handing a batch to the notification builder is recorded as an effect.
 *
 * The name `messageService` used at the dispatch points is never declared. Class bodies are strict
 * code, so as written every assignment to it throws; the functions below take `strict` to say
 * whether the assignment throws (as written) or binds a global (as intended), and the class uses
 * the intended reading. `bound` records whether that global has been assigned yet.
 */
module Listener {
  import opened Common

  /** Consecutive errors tolerated before the listener gives up. */
  const MaxRetries := 5

  /** One category of a `shops` event: its countdown and its item list (absent or null when None). */
  datatype Category = Category(countdown: int, items: Option<seq<Item>>)

  /** A key of the parsed object and its value, in key order. */
  datatype Entry = Entry(key: string, category: Category)

  /** A `shops` event: the parsed object, or a payload whose parsing throws. */
  datatype ShopsEvent = ShopsMalformed | Shops(entries: seq<Entry>)

  /** A `weather` event: the `weather` field (None when absent or null), or a malformed payload. */
  datatype WeatherEvent = WeatherMalformed | Weather(weather: Option<string>)

  /** What `timeData` holds for one category; `lastrun` None is the initial null. */
  datatype Stored = Stored(lastrun: Option<int>, items: seq<Item>)

  /** What the listener hands on: a mid-cycle batch of new items, a combined batch, a status. */
  datatype Effect = NewItemsSent(items: seq<Item>) | BatchSent(items: seq<Item>) | StatusStopped

  // ---------------------------------------------------------------------------------------------
  // New items of a category

  /** The names of a stored item list. */
  function Names(items: seq<Item>): set<string> {
    set x | x in items :: x.name
  }

  /** The incoming items whose name is not among the stored names, in incoming order. */
  function NewItems(incoming: seq<Item>, prev: seq<Item>): seq<Item> {
    if incoming == [] then []
    else
      var last := incoming[|incoming| - 1];
      NewItems(incoming[..|incoming| - 1], prev) + (if last.name in Names(prev) then [] else [last])
  }

  /** An item is new exactly when it arrives and its name was not stored. */
  lemma {:induction false} NewItemsMembers(incoming: seq<Item>, prev: seq<Item>)
    ensures forall x :: x in NewItems(incoming, prev) <==> x in incoming && x.name !in Names(prev)
  {
    if incoming != [] {
      var init := incoming[..|incoming| - 1];
      NewItemsMembers(init, prev);
      assert incoming == init + [incoming[|incoming| - 1]];
    }
  }

  /** The filter keeps incoming order: it distributes over joining two incoming lists. */
  lemma {:induction false} NewItemsAppend(a: seq<Item>, b: seq<Item>, prev: seq<Item>)
    ensures NewItems(a + b, prev) == NewItems(a, prev) + NewItems(b, prev)
    decreases |b|
  {
    if b == [] {
      assert a + b == a;
    } else {
      var b' := b[..|b| - 1];
      NewItemsAppend(a, b', prev);
      assert (a + b)[..|a + b| - 1] == a + b';
      assert (a + b)[|a + b| - 1] == b[|b| - 1];
    }
  }

  /** Nothing is new exactly when every incoming name was already stored. */
  lemma NoNewItemsIff(incoming: seq<Item>, prev: seq<Item>)
    ensures NewItems(incoming, prev) == [] <==> forall x :: x in incoming ==> x.name in Names(prev)
  {
    NewItemsMembers(incoming, prev);
    if NewItems(incoming, prev) != [] {
      assert NewItems(incoming, prev)[0] in NewItems(incoming, prev);
    }
  }

  // ---------------------------------------------------------------------------------------------
  // The per-category rule

  /** What one pass over the categories has produced so far. */
  datatype Outcome = Outcome(timeData: map<string, Stored>, batch: seq<Item>, sent: seq<Effect>, aborted: bool)

  /** The stored state of a category, created as `{lastrun: null, items: []}` when first seen. */
  function Prior(timeData: map<string, Stored>, key: string): Stored {
    if key in timeData then timeData[key] else Stored(None, [])
  }

  /** Whether the incoming countdown starts a new cycle: nothing stored yet, or it went up. */
  predicate Resets(s: Stored, c: Category) {
    s.lastrun.None? || c.countdown > s.lastrun.value
  }

  /** What visiting one category does: its new stored state, its part of the combined batch, what it sends, whether it throws. */
  datatype Visited = Visited(stored: Stored, batchPart: seq<Item>, sentPart: seq<Effect>, threw: bool)

  /**
   * The rule for one category. A new cycle replaces the stored state and adds the incoming items
   * to the combined batch; spreading an absent item list throws after the state is written. Within
   * a cycle, new names replace the stored items and are sent on their own through the global
   * service, which throws while it is unbound. Otherwise only the countdown is recorded.
   */
  function Visit(timeData: map<string, Stored>, e: Entry, bound: bool): Visited {
    var s := Prior(timeData, e.key);
    var c := e.category;
    var incoming := c.items.GetOr([]);
    var added := NewItems(incoming, s.items);
    if Resets(s, c) then
      Visited(Stored(Some(c.countdown), incoming), c.items.GetOr([]), [], c.items.None?)
    else if added != [] then
      Visited(Stored(s.lastrun, incoming), [], if bound then [NewItemsSent(added)] else [], !bound)
    else
      Visited(Stored(Some(c.countdown), s.items), [], [], false)
  }

  /** One category applied to the pass so far. */
  function Step(o: Outcome, e: Entry, bound: bool): Outcome {
    var v := Visit(o.timeData, e, bound);
    Outcome(o.timeData[e.key := v.stored], o.batch + v.batchPart, o.sent + v.sentPart, v.threw)
  }

  /** The categories in key order; a throw ends the pass. */
  function Fold(timeData: map<string, Stored>, entries: seq<Entry>, bound: bool): Outcome {
    if entries == [] then Outcome(timeData, [], [], false)
    else
      var prev := Fold(timeData, entries[..|entries| - 1], bound);
      if prev.aborted then prev else Step(prev, entries[|entries| - 1], bound)
  }

  /** Once a step threw, the remaining categories are not visited. */
  lemma {:induction false} FoldAfterAbort(timeData: map<string, Stored>, a: seq<Entry>, rest: seq<Entry>, bound: bool)
    requires Fold(timeData, a, bound).aborted
    ensures Fold(timeData, a + rest, bound) == Fold(timeData, a, bound)
    decreases |rest|
  {
    if rest == [] {
      assert a + rest == a;
    } else {
      var rest' := rest[..|rest| - 1];
      FoldAfterAbort(timeData, a, rest', bound);
      assert (a + rest)[..|a + rest| - 1] == a + rest';
    }
  }

  /** The pass over one more category. */
  lemma FoldNext(timeData: map<string, Stored>, entries: seq<Entry>, i: nat, bound: bool)
    requires i < |entries|
    ensures var o := Fold(timeData, entries[..i], bound);
            Fold(timeData, entries[..i + 1], bound) == if o.aborted then o else Step(o, entries[i], bound)
  {
    assert entries[..i + 1][..i] == entries[..i];
  }

  /** A throw at category `i` ends the handler with what the pass had written and sent up to there. */
  lemma ShopsAfterThrow(timeData: map<string, Stored>, weather: string, bound: bool, entries: seq<Entry>, i: nat)
    requires i < |entries| && Fold(timeData, entries[..i + 1], bound).aborted
    ensures var o := Fold(timeData, entries[..i + 1], bound);
            OnShops(timeData, weather, bound, Shops(entries), false) == Reaction(o.timeData, weather, o.sent, bound, false)
  {
    FoldAfterAbort(timeData, entries[..i + 1], entries[i + 1..], bound);
    assert entries[..i + 1] + entries[i + 1..] == entries;
  }

  /** A category seen for the first time starts a cycle: its whole list is stored and batched. */
  lemma FirstSeenIsFull(timeData: map<string, Stored>, e: Entry, bound: bool)
    requires e.key !in timeData && e.category.items.Some?
    ensures Visit(timeData, e, bound) == Visited(Stored(Some(e.category.countdown), e.category.items.value), e.category.items.value, [], false)
  {}

  /** A countdown that went up replaces the stored countdown and items and batches every incoming item. */
  lemma LargerCountdownReplaces(timeData: map<string, Stored>, e: Entry, bound: bool, t: int)
    requires e.key in timeData && timeData[e.key].lastrun == Some(t) && e.category.countdown > t
    requires e.category.items.Some?
    ensures Visit(timeData, e, bound) == Visited(Stored(Some(e.category.countdown), e.category.items.value), e.category.items.value, [], false)
  {}

  /** A new cycle whose item list is absent still records the countdown and empties the items, then throws. */
  lemma MissingItemsThrow(timeData: map<string, Stored>, e: Entry, bound: bool)
    requires Resets(Prior(timeData, e.key), e.category) && e.category.items.None?
    ensures Visit(timeData, e, bound) == Visited(Stored(Some(e.category.countdown), []), [], [], true)
  {}

  /**
   * Within a cycle, new names replace the stored items but keep the countdown; only the new items
   * are sent, on their own and never through the combined batch, and only once the global is bound.
   */
  lemma FreshKeepsLastrun(timeData: map<string, Stored>, e: Entry, bound: bool, t: int)
    requires e.key in timeData && timeData[e.key].lastrun == Some(t) && e.category.countdown <= t
    requires NewItems(e.category.items.GetOr([]), timeData[e.key].items) != []
    ensures var added := NewItems(e.category.items.GetOr([]), timeData[e.key].items);
            Visit(timeData, e, bound) ==
              Visited(Stored(Some(t), e.category.items.GetOr([])), [], if bound then [NewItemsSent(added)] else [], !bound)
  {
    assert Prior(timeData, e.key) == timeData[e.key];
  }

  /** Otherwise only the countdown moves: the stored items stay, even when names disappeared. */
  lemma QuietKeepsItems(timeData: map<string, Stored>, e: Entry, bound: bool, t: int)
    requires e.key in timeData && timeData[e.key].lastrun == Some(t) && e.category.countdown <= t
    requires NewItems(e.category.items.GetOr([]), timeData[e.key].items) == []
    ensures Visit(timeData, e, bound) == Visited(Stored(Some(e.category.countdown), timeData[e.key].items), [], [], false)
  {}

  /** A pass writes only the keys it visits. */
  lemma {:induction false} FoldTouchesOnlyItsKeys(timeData: map<string, Stored>, entries: seq<Entry>, bound: bool, k: string)
    requires forall j :: 0 <= j < |entries| ==> entries[j].key != k
    ensures var r := Fold(timeData, entries, bound).timeData;
            (k in r <==> k in timeData) && (k in timeData ==> r[k] == timeData[k])
  {
    if entries != [] {
      FoldTouchesOnlyItsKeys(timeData, entries[..|entries| - 1], bound, k);
    }
  }

  /** Stored keys stay stored, and after a pass that did not throw every visited key is stored. */
  lemma {:induction false} FoldStoresVisitedKeys(timeData: map<string, Stored>, entries: seq<Entry>, bound: bool)
    ensures var r := Fold(timeData, entries, bound);
            forall k :: k in timeData ==> k in r.timeData
    ensures var r := Fold(timeData, entries, bound);
            !r.aborted ==> forall j :: 0 <= j < |entries| ==> entries[j].key in r.timeData
  {
    if entries != [] {
      var init := entries[..|entries| - 1];
      FoldStoresVisitedKeys(timeData, init, bound);
      assert forall j :: 0 <= j < |init| ==> init[j] == entries[j];
    }
  }

  /**
   * A category the pass reaches is stored afterwards, even when its own step threw: its record
   * is written before its items are read or anything is sent.
   */
  lemma {:induction false} FoldStoresReachedKey(timeData: map<string, Stored>, entries: seq<Entry>, bound: bool, j: nat)
    requires j < |entries| && !Fold(timeData, entries[..j], bound).aborted
    ensures entries[j].key in Fold(timeData, entries, bound).timeData
  {
    var init := entries[..|entries| - 1];
    if j < |init| {
      assert init[..j] == entries[..j];
      FoldStoresReachedKey(timeData, init, bound, j);
      assert init[j] == entries[j];
    } else {
      assert init == entries[..j];
    }
  }

  /** With the global unbound, nothing is ever sent during the pass. */
  lemma {:induction false} UnboundSendsNothing(timeData: map<string, Stored>, entries: seq<Entry>)
    ensures Fold(timeData, entries, false).sent == []
  {
    if entries != [] {
      UnboundSendsNothing(timeData, entries[..|entries| - 1]);
    }
  }

  // ---------------------------------------------------------------------------------------------
  // Reactions to one event

  /** The change one event makes: the new diff state and weather, what is handed on, the global, the retry reset. */
  datatype Reaction = Reaction(timeData: map<string, Stored>, weather: string, effects: seq<Effect>, bound: bool, resetsRetries: bool)

  /**
   * handleData. An empty combined batch returns before the dispatch; otherwise the global is
   * assigned (a throw when `strict`), the batch handed on once and the retry count reset. A throw
   * anywhere ends the handler in its catch, keeping what was already written and sent.
   */
  function OnShops(timeData: map<string, Stored>, weather: string, bound: bool, ev: ShopsEvent, strict: bool): Reaction {
    match ev
    case ShopsMalformed => Reaction(timeData, weather, [], bound, false)
    case Shops(entries) =>
      var o := Fold(timeData, entries, bound);
      if o.aborted || o.batch == [] || strict then Reaction(o.timeData, weather, o.sent, bound, false)
      else Reaction(o.timeData, weather, o.sent + [BatchSent(o.batch)], true, true)
  }

  /**
   * handleWeatherData. A changed weather is stored, then the global is assigned (a throw when
   * `strict`) and the weather handed on as one item with an empty stock; the retry count is reset
   * whenever the handler runs to its end.
   */
  function OnWeather(timeData: map<string, Stored>, weather: string, bound: bool, ev: WeatherEvent, strict: bool): Reaction {
    match ev
    case WeatherMalformed => Reaction(timeData, weather, [], bound, false)
    case Weather(w) =>
      var incoming := w.GetOr("");
      if incoming == weather then Reaction(timeData, weather, [], bound, true)
      else if strict then Reaction(timeData, incoming, [], bound, false)
      else Reaction(timeData, incoming, [BatchSent([Item(incoming, Text(""))])], true, true)
  }

  /** An empty combined batch dispatches nothing and leaves the retry count alone; a non-empty one is handed on exactly once, last, and resets it. */
  lemma BatchDispatchedOnce(timeData: map<string, Stored>, weather: string, bound: bool, entries: seq<Entry>)
    ensures var o := Fold(timeData, entries, bound);
            var r := OnShops(timeData, weather, bound, Shops(entries), false);
            (o.aborted || o.batch == [] ==> r.effects == o.sent && !r.resetsRetries && r.bound == bound) &&
            (!o.aborted && o.batch != [] ==> r.effects == o.sent + [BatchSent(o.batch)] && r.resetsRetries && r.bound)
  {}

  /** The combined batch is never handed on through the mid-cycle path: every effect of the pass is a new-items send. */
  lemma {:induction false} PassSendsOnlyNewItems(timeData: map<string, Stored>, entries: seq<Entry>, bound: bool)
    ensures forall k :: 0 <= k < |Fold(timeData, entries, bound).sent| ==> Fold(timeData, entries, bound).sent[k].NewItemsSent?
  {
    if entries != [] {
      PassSendsOnlyNewItems(timeData, entries[..|entries| - 1], bound);
    }
  }

  /** A weather item is handed on exactly when the weather changed; a parsed event always resets the retry count. */
  lemma WeatherEmittedIff(timeData: map<string, Stored>, weather: string, bound: bool, w: Option<string>)
    ensures var r := OnWeather(timeData, weather, bound, Weather(w), false);
            (r.effects != [] <==> w.GetOr("") != weather) &&
            (r.effects != [] ==> r.effects == [BatchSent([Item(w.GetOr(""), Text(""))])]) &&
            r.weather == w.GetOr("") && r.resetsRetries && r.timeData == timeData
  {}

  /** A malformed payload changes nothing. */
  lemma MalformedIsIgnored(timeData: map<string, Stored>, weather: string, bound: bool, strict: bool)
    ensures OnShops(timeData, weather, bound, ShopsMalformed, strict) == Reaction(timeData, weather, [], bound, false)
    ensures OnWeather(timeData, weather, bound, WeatherMalformed, strict) == Reaction(timeData, weather, [], bound, false)
  {}

  /**
   * As written, the global is never bound, so no event is ever handed on and no event resets the
   * retry count: the combined batch and a weather change both throw at the assignment, and a
   * mid-cycle batch throws at the unbound name.
   */
  lemma StrictNeverDispatches(timeData: map<string, Stored>, weather: string, s: ShopsEvent, w: WeatherEvent)
    ensures var r := OnShops(timeData, weather, false, s, true);
            r.effects == [] && !r.bound && !r.resetsRetries
    ensures var r := OnWeather(timeData, weather, false, w, true);
            r.effects == [] && !r.bound && (r.resetsRetries <==> w.Weather? && w.weather.GetOr("") == weather)
  {
    if s.Shops? {
      UnboundSendsNothing(timeData, s.entries);
    }
  }

  /** A concrete event that shows it: a first `shops` event with one item is lost as written and handed on as intended. */
  lemma StrictLosesFirstBatch()
    ensures var ev := Shops([Entry("seed", Category(300, Some([Item("Carrot", Count(3))])))]);
            OnShops(map[], "", false, ev, true).effects == [] &&
            OnShops(map[], "", false, ev, false).effects == [BatchSent([Item("Carrot", Count(3))])]
  {
    var e := Entry("seed", Category(300, Some([Item("Carrot", Count(3))])));
    assert [e][..0] == [];
    assert [e][|[e]| - 1] == e;
    assert Fold(map[], [], false) == Outcome(map[], [], [], false);
    var o := Fold(map[], [e], false);
    assert o == Step(Outcome(map[], [], [], false), e, false);
    assert Resets(Prior(map[], "seed"), e.category);
    assert o.batch == [Item("Carrot", Count(3))] && !o.aborted;
  }

  // ---------------------------------------------------------------------------------------------
  // Life cycle

  /** The event source: never opened or dropped (null), open, or closed. */
  datatype Source = NoSource | Open | Closed

  /** The life-cycle state: the running flag, the retry count, the source and pending reconnect timers. */
  datatype Life = Life(running: bool, retries: int, source: Source, timers: nat)

  /** start: a no-op while running; otherwise runs and connects. */
  function AfterStart(l: Life): Life {
    if l.running then l else l.(running := true, source := Open)
  }

  /** stop: a no-op while stopped; otherwise stops and drops the source. */
  function AfterStop(l: Life): Life {
    if !l.running then l else l.(running := false, source := NoSource)
  }

  /** retry, on a source error: counts the error, closes the source, then gives up or schedules a reconnect. */
  function AfterError(l: Life): Life {
    if !l.running then l
    else
      var counted := l.(retries := l.retries + 1, source := Closed);
      if counted.retries > MaxRetries then AfterStop(counted) else counted.(timers := counted.timers + 1)
  }

  /** A reconnect timer fires and connects, whether or not the listener still runs. */
  function AfterTimer(l: Life): Life
    requires l.timers > 0
  {
    l.(timers := l.timers - 1, source := Open)
  }

  /** The status event a transition emits: one `stopped` exactly when it ends a running listener. */
  function StopEffects(before: Life, after: Life): seq<Effect> {
    if before.running && !after.running then [StatusStopped] else []
  }

  lemma StartStopContracts(l: Life)
    ensures l.running ==> AfterStart(l) == l
    ensures !l.running ==> AfterStart(l).running && AfterStart(l).source == Open && AfterStart(l).retries == l.retries
    ensures !AfterStop(l).running && (l.running ==> AfterStop(l).source == NoSource)
    ensures !l.running ==> AfterStop(l) == l
    ensures StopEffects(l, AfterStop(l)) == (if l.running then [StatusStopped] else [])
  {}

  /** `k` source errors in a row, and how many `stopped` statuses they emit. */
  function Errors(l: Life, k: nat): Life {
    if k == 0 then l else AfterError(Errors(l, k - 1))
  }

  function StopsDuring(l: Life, k: nat): nat {
    if k == 0 then 0 else StopsDuring(l, k - 1) + |StopEffects(Errors(l, k - 1), Errors(l, k))|
  }

  /**
   * From a running listener with retry count `c`, `k` errors in a row leave it running exactly
   * when `c + k <= 5`, each one counted; the listener stops once, on the error that takes the
   * count past 5 (the first error already when a restarted listener kept a count above 4).
   */
  lemma {:induction false} ErrorsGiveUpAfterFive(l: Life, k: nat)
    requires l.running
    ensures Errors(l, k).running <==> k == 0 || l.retries + k <= MaxRetries
    ensures Errors(l, k).running ==> Errors(l, k).retries == l.retries + k && Errors(l, k).timers == l.timers + k
    ensures StopsDuring(l, k) == (if k > 0 && l.retries + k > MaxRetries then 1 else 0)
  {
    if k > 0 {
      ErrorsGiveUpAfterFive(l, k - 1);
    }
  }

  /** An error while stopped changes nothing. */
  lemma ErrorWhileStopped(l: Life)
    requires !l.running
    ensures AfterError(l) == l && StopEffects(l, AfterError(l)) == []
  {}

  /** A reconnect timer that fires after the listener stopped still opens a source. */
  lemma TimerAfterStopReconnects(l: Life)
    requires l.running && l.retries + 1 <= MaxRetries
    ensures var l' := AfterStop(AfterError(l));
            !l'.running && l'.timers == l.timers + 1 && AfterTimer(l').source == Open && !AfterTimer(l').running
  {}

  // ---------------------------------------------------------------------------------------------
  // The listener object

  /** The snapshot getStatus returns. */
  datatype Status = Status(isRunning: bool, retryCount: int, apiUrl: string)

  class StreamListener {
    const apiUrl: string
    var isRunning: bool
    var retryCount: int
    var timeData: map<string, Stored>
    var weather: string
    var source: Source
    var timers: nat
    /** Whether the module-level `messageService` has been assigned. */
    var bound: bool
    /** Everything handed on so far, in order. */
    var effects: seq<Effect>

    function Lifecycle(): Life
      reads this
    {
      Life(isRunning, retryCount, source, timers)
    }

    constructor (url: string)
      ensures apiUrl == url && Lifecycle() == Life(false, 0, NoSource, 0)
      ensures timeData == map[] && weather == "" && !bound && effects == []
    {
      apiUrl := url;
      isRunning, retryCount := false, 0;
      timeData, weather := map[], "";
      source, timers := NoSource, 0;
      bound, effects := false, [];
    }

    /** getStatus */
    function GetStatus(): (s: Status)
      reads this
      ensures s.isRunning == isRunning && s.retryCount == retryCount && s.apiUrl == apiUrl
    {
      Status(isRunning, retryCount, apiUrl)
    }

    method Start()
      modifies this
      ensures Lifecycle() == AfterStart(old(Lifecycle()))
      ensures timeData == old(timeData) && weather == old(weather) && bound == old(bound) && effects == old(effects)
    {
      if isRunning {
        return;
      }
      isRunning := true;
      source := Open;
    }

    method Stop()
      modifies this
      ensures Lifecycle() == AfterStop(old(Lifecycle()))
      ensures effects == old(effects) + StopEffects(old(Lifecycle()), Lifecycle())
      ensures timeData == old(timeData) && weather == old(weather) && bound == old(bound)
    {
      if !isRunning {
        return;
      }
      isRunning := false;
      source := NoSource;
      effects := effects + [StatusStopped];
    }

    method Retry()
      modifies this
      ensures Lifecycle() == AfterError(old(Lifecycle()))
      ensures effects == old(effects) + StopEffects(old(Lifecycle()), Lifecycle())
      ensures timeData == old(timeData) && weather == old(weather) && bound == old(bound)
    {
      if !isRunning {
        return;
      }
      retryCount := retryCount + 1;
      source := Closed;
      if retryCount > MaxRetries {
        Stop();
        return;
      }
      timers := timers + 1;
    }

    /** The `setTimeout` callback of a reconnect: connect. */
    method TimerFires()
      requires timers > 0
      modifies this
      ensures Lifecycle() == AfterTimer(old(Lifecycle()))
      ensures timeData == old(timeData) && weather == old(weather) && bound == old(bound) && effects == old(effects)
    {
      timers := timers - 1;
      source := Open;
    }

    /**
     * handleData, with the assignment to `messageService` binding the global. What the pass wrote
     * and sent is kept when a category throws; only the combined dispatch is skipped.
     */
    method HandleData(ev: ShopsEvent)
      modifies this
      ensures var r := OnShops(old(timeData), old(weather), old(bound), ev, false);
              timeData == r.timeData && effects == old(effects) + r.effects && bound == r.bound &&
              retryCount == (if r.resetsRetries then 0 else old(retryCount))
      ensures isRunning == old(isRunning) && source == old(source) && timers == old(timers) && weather == old(weather)
    {
      if ev.ShopsMalformed? {
        return;
      }
      var o := DiffPass(timeData, ev.entries, bound);
      timeData, effects := o.timeData, effects + o.sent;
      if o.aborted || |o.batch| == 0 {
        return;
      }
      bound := true;
      effects := effects + [BatchSent(o.batch)];
      retryCount := 0;
    }

    /** handleWeatherData, with the assignment to `messageService` binding the global. */
    method HandleWeatherData(ev: WeatherEvent)
      modifies this
      ensures var r := OnWeather(old(timeData), old(weather), old(bound), ev, false);
              weather == r.weather && effects == old(effects) + r.effects && bound == r.bound &&
              retryCount == (if r.resetsRetries then 0 else old(retryCount))
      ensures isRunning == old(isRunning) && source == old(source) && timers == old(timers) && timeData == old(timeData)
    {
      if ev.WeatherMalformed? {
        return;
      }
      var incoming := ev.weather.GetOr("");
      if weather != incoming {
        weather := incoming;
        bound := true;
        effects := effects + [BatchSent([Item(incoming, Text(""))])];
      }
      retryCount := 0;
    }
  }

  /**
   * The `forEach` over the categories of a parsed event: each visit updates the diff state and
   * may add to the combined batch or send new items; a throw leaves the remaining keys unvisited.
   */
  method DiffPass(timeData: map<string, Stored>, entries: seq<Entry>, bound: bool) returns (o: Outcome)
    ensures o == Fold(timeData, entries, bound)
  {
    var td, batch, sent, threw := timeData, [], [], false;
    var i := 0;
    while i < |entries| && !threw
      invariant 0 <= i <= |entries|
      invariant Fold(timeData, entries[..i], bound) == Outcome(td, batch, sent, threw)
    {
      var e := entries[i];
      FoldNext(timeData, entries, i, bound);
      var v := VisitCategory(td, e, bound);
      td, batch, sent, threw := td[e.key := v.stored], batch + v.batchPart, sent + v.sentPart, v.threw;
      i := i + 1;
    }
    if threw {
      FoldAfterAbort(timeData, entries[..i], entries[i..], bound);
      assert entries[..i] + entries[i..] == entries;
    } else {
      assert entries[..i] == entries;
    }
    o := Outcome(td, batch, sent, threw);
  }

  /** The `forEach` callback for one category, on the stored state it updates. */
  method VisitCategory(timeData: map<string, Stored>, e: Entry, bound: bool) returns (v: Visited)
    ensures v == Visit(timeData, e, bound)
  {
    var stored := if e.key in timeData then timeData[e.key] else Stored(None, []);
    var incoming := e.category.items.GetOr([]);
    var added := NewItemsOf(incoming, stored.items);
    if stored.lastrun.None? || e.category.countdown > stored.lastrun.value {
      stored := Stored(Some(e.category.countdown), incoming);
      if e.category.items.None? {
        return Visited(stored, [], [], true);
      }
      return Visited(stored, e.category.items.value, [], false);
    } else if |added| > 0 {
      stored := stored.(items := incoming);
      if !bound {
        return Visited(stored, [], [], true);
      }
      return Visited(stored, [], [NewItemsSent(added)], false);
    }
    stored := stored.(lastrun := Some(e.category.countdown));
    return Visited(stored, [], [], false);
  }

  /** `incomingItems.filter(item => !prevNames.has(item.name))`, one item at a time. */
  method NewItemsOf(incoming: seq<Item>, prev: seq<Item>) returns (added: seq<Item>)
    ensures added == NewItems(incoming, prev)
  {
    var names := set x | x in prev :: x.name;
    added := [];
    var i := 0;
    while i < |incoming|
      invariant 0 <= i <= |incoming|
      invariant added == NewItems(incoming[..i], prev)
    {
      assert incoming[..i + 1][..i] == incoming[..i];
      if incoming[i].name !in names {
        added := added + [incoming[i]];
      }
      i := i + 1;
    }
    assert incoming[..i] == incoming;
  }
}
