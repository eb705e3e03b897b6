/** The listener table of media/js/cometd.js and the subscribe and unsubscribe messages that should mirror it. */
module Listeners {
  import opened Options
  import opened Channels

  datatype Entry = Entry(callback: nat, subscription: bool)

  /** `delete` leaves a hole, so that the other indices stay what they are. */
  type Slots = seq<Option<Entry>>
  type Table = map<string, Slots>

  datatype Handle = Handle(channel: string, index: nat)
  datatype SubMessage = Subscribe(channel: string) | Unsubscribe(channel: string)

  /** The table, the subscription messages submitted since the last handshake, and the callbacks made so far. */
  datatype Registry = Registry(listeners: Table, messages: seq<SubMessage>, calls: seq<nat>)

  function SlotsOf(t: Table, channel: string): Slots {
    if channel in t then t[channel] else []
  }

  predicate HasLive(s: Slots) {
    exists i :: 0 <= i < |s| && s[i].Some?
  }

  function AddEntry(t: Table, channel: string, e: Entry): Table {
    t[channel := SlotsOf(t, channel) + [Some(e)]]
  }

  function RemoveEntry(t: Table, h: Handle): Table {
    if h.channel in t && h.index < |t[h.channel]| then t[h.channel := t[h.channel][h.index := None]] else t
  }

  function ClearedSlots(s: Slots): (r: Slots)
    ensures |r| == |s|
    ensures forall i :: 0 <= i < |s| ==> r[i] == if s[i].Some? && s[i].value.subscription then None else s[i]
  {
    if s == [] then []
    else [if s[0].Some? && s[0].value.subscription then None else s[0]] + ClearedSlots(s[1..])
  }

  function ClearedTable(t: Table): Table {
    map channel | channel in t :: ClearedSlots(t[channel])
  }

  function Callbacks(s: Slots): seq<nat> {
    if s == [] then [] else (if s[0].Some? then [s[0].value.callback] else []) + Callbacks(s[1..])
  }

  /** The callbacks made when the given patterns are looked up one after the other. */
  function CallbacksOf(t: Table, patterns: seq<string>): seq<nat> {
    if patterns == [] then [] else Callbacks(SlotsOf(t, patterns[0])) + CallbacksOf(t, patterns[1..])
  }

  function DoSubscribe(r: Registry, channel: string, callback: nat): Registry {
    r.(listeners := AddEntry(r.listeners, channel, Entry(callback, true)),
       messages := if HasLive(SlotsOf(r.listeners, channel)) then r.messages else r.messages + [Subscribe(channel)])
  }

  function DoUnsubscribe(r: Registry, h: Handle): Registry {
    var t := RemoveEntry(r.listeners, h);
    r.(listeners := t,
       messages := if HasLive(SlotsOf(t, h.channel)) then r.messages else r.messages + [Unsubscribe(h.channel)])
  }

  // ---------------------------------------------------------------- the table itself

  class Client {
    var listeners: Table
    var messages: seq<SubMessage>
    var calls: seq<nat>

    ghost function View(): Registry
      reads this
    {
      Registry(listeners, messages, calls)
    }

    constructor ()
      ensures View() == Registry(map[], [], [])
    {
      listeners, messages, calls := map[], [], [];
    }

    method AddListenerEntry(channel: string, callback: nat, subscription: bool) returns (handle: Handle)
      modifies this`listeners
      ensures listeners == AddEntry(old(listeners), channel, Entry(callback, subscription))
      ensures handle == Handle(channel, |SlotsOf(old(listeners), channel)|)
    {
      if channel !in listeners {
        listeners := listeners[channel := []];
      }
      var subscriptions := listeners[channel] + [Some(Entry(callback, subscription))];
      listeners := listeners[channel := subscriptions];
      handle := Handle(channel, |subscriptions| - 1);
    }

    method RemoveListener(handle: Handle)
      modifies this`listeners
      ensures listeners == RemoveEntry(old(listeners), handle)
    {
      if handle.channel in listeners && handle.index < |listeners[handle.channel]| {
        listeners := listeners[handle.channel := listeners[handle.channel][handle.index := None]];
      }
    }

    method HasSubscriptions(channel: string) returns (found: bool)
      ensures found == HasLive(SlotsOf(listeners, channel))
    {
      if channel in listeners {
        var subscriptions := listeners[channel];
        for i := 0 to |subscriptions|
          invariant forall j :: 0 <= j < i ==> subscriptions[j].None?
        {
          if subscriptions[i].Some? {
            return true;
          }
        }
      }
      return false;
    }

    method Subscribe(channel: string, callback: nat) returns (handle: Handle)
      modifies this
      ensures View() == DoSubscribe(old(View()), channel, callback)
      ensures handle == Handle(channel, |SlotsOf(old(listeners), channel)|)
    {
      var registered := HasSubscriptions(channel);
      handle := AddListenerEntry(channel, callback, true);
      if !registered {
        messages := messages + [SubMessage.Subscribe(channel)];
      }
    }

    method Unsubscribe(handle: Handle)
      modifies this
      ensures View() == DoUnsubscribe(old(View()), handle)
    {
      RemoveListener(handle);
      var registered := HasSubscriptions(handle.channel);
      if !registered {
        messages := messages + [SubMessage.Unsubscribe(handle.channel)];
      }
    }

    method ClearListeners()
      modifies this`listeners
      ensures listeners == map[]
    {
      listeners := map[];
    }

    /** Deletes the subscriptions among the listeners of one channel. */
    method ClearedOf(listed: Slots) returns (subscriptions: Slots)
      ensures subscriptions == ClearedSlots(listed)
    {
      subscriptions := listed;
      for i := 0 to |subscriptions|
        invariant |subscriptions| == |listed|
        invariant forall j :: 0 <= j < i ==>
                    subscriptions[j] == if listed[j].Some? && listed[j].value.subscription then None else listed[j]
        invariant forall j :: i <= j < |listed| ==> subscriptions[j] == listed[j]
      {
        if subscriptions[i].Some? && subscriptions[i].value.subscription {
          subscriptions := subscriptions[i := None];
        }
      }
    }

    method ClearSubscriptions()
      modifies this`listeners
      ensures listeners == ClearedTable(old(listeners))
    {
      var channels := listeners.Keys;
      while channels != {}
        invariant channels <= listeners.Keys && listeners.Keys == old(listeners).Keys
        invariant forall c :: c in listeners ==>
                    listeners[c] == if c in channels then old(listeners)[c] else ClearedSlots(old(listeners)[c])
        decreases channels
      {
        var channel :| channel in channels;
        var cleared := ClearedOf(listeners[channel]);
        listeners := listeners[channel := cleared];
        channels := channels - {channel};
      }
    }

    /** Makes every live callback registered for exactly this pattern, in order of registration. */
    method Notify(pattern: string)
      modifies this`calls
      ensures calls == old(calls) + Callbacks(SlotsOf(listeners, pattern))
    {
      if pattern in listeners {
        var subscriptions := listeners[pattern];
        var i := 0;
        while i < |subscriptions|
          invariant 0 <= i <= |subscriptions|
          invariant calls + Callbacks(subscriptions[i..]) == old(calls) + Callbacks(subscriptions)
        {
          assert subscriptions[i..][1..] == subscriptions[i + 1..];
          if subscriptions[i].Some? {
            calls := calls + [subscriptions[i].value.callback];
          }
          i := i + 1;
        }
      }
    }

    method NotifyListeners(channel: string)
      modifies this`calls
      ensures calls == old(calls) + CallbacksOf(listeners, LookedUp(channel))
    {
      // Notify direct listeners
      Notify(channel);
      // Notify the globbing listeners
      var channelParts := Split(channel);
      NotifyGlobbing(channelParts);
      ghost var last := |channelParts| - 1;
      GlobCalls(listeners, channelParts, last);
      AllCalls(listeners, channel, Globs(channelParts, last), GlobCallbacks(listeners, channelParts, last), old(calls));
    }

    method NotifyGlobbing(channelParts: seq<string>)
      requires |channelParts| >= 1
      modifies this`calls
      ensures calls == old(calls) + GlobCallbacks(listeners, channelParts, |channelParts| - 1)
    {
      var last := |channelParts| - 1;
      var i := last;
      ghost var all := calls + GlobCallbacks(listeners, channelParts, last);
      while i > 0
        invariant 0 <= i <= last
        invariant calls + GlobCallbacks(listeners, channelParts, i) == all
      {
        GlobTurn(listeners, channelParts, i, calls);
        NotifyGlobs(Join(channelParts[..i]) + "/*", i == last);
        i := i - 1;
      }
    }

    /** The body of the globbing loop. */
    method NotifyGlobs(channelPart: string, last: bool)
      modifies this`calls
      ensures calls == old(calls) + GlobPair(listeners, channelPart, last)
    {
      // A single-segment wildcard only matches at the last segment
      if last {
        Notify(channelPart);
      }
      // Add the recursive globber
      Notify(channelPart + "*");
    }
  }

  /** The callbacks that one turn of the globbing loop makes. */
  function GlobPair(t: Table, part: string, last: bool): seq<nat> {
    (if last then Callbacks(SlotsOf(t, part)) else []) + Callbacks(SlotsOf(t, part + "*"))
  }

  lemma {:induction false} CallsOne(t: Table, pattern: string, patterns: seq<string>)
    ensures CallbacksOf(t, [pattern] + patterns) == Callbacks(SlotsOf(t, pattern)) + CallbacksOf(t, patterns)
  {
    assert ([pattern] + patterns)[1..] == patterns;
  }

  /** The callbacks that the globbing loop still has to make when its counter is `i`. */
  function GlobCallbacks(t: Table, parts: seq<string>, i: nat): seq<nat>
    requires i < |parts|
  {
    if i == 0 then []
    else
      GlobPair(t, Join(parts[..i]) + "/*", i == |parts| - 1) + GlobCallbacks(t, parts, i - 1)
  }

  lemma {:induction false} GlobTurn(t: Table, parts: seq<string>, i: nat, before: seq<nat>)
    requires 0 < i < |parts|
    ensures before + GlobCallbacks(t, parts, i) ==
            before + GlobPair(t, Join(parts[..i]) + "/*", i == |parts| - 1) + GlobCallbacks(t, parts, i - 1)
  {
  }

  lemma {:induction false} GlobCalls(t: Table, parts: seq<string>, i: nat)
    requires i < |parts|
    ensures CallbacksOf(t, Globs(parts, i)) == GlobCallbacks(t, parts, i)
  {
    if i > 0 {
      GlobCalls(t, parts, i - 1);
      PairCalls(t, Join(parts[..i]) + "/*", i == |parts| - 1, Globs(parts, i - 1));
    }
  }

  lemma {:induction false} AllCalls(t: Table, channel: string, rest: seq<string>, made: seq<nat>, before: seq<nat>)
    requires CallbacksOf(t, rest) == made
    ensures before + Callbacks(SlotsOf(t, channel)) + made == before + CallbacksOf(t, [channel] + rest)
  {
    CallsOne(t, channel, rest);
    Regroup(before, Callbacks(SlotsOf(t, channel)), made);
  }

  lemma {:induction false} Regroup(a: seq<nat>, b: seq<nat>, c: seq<nat>)
    ensures a + b + c == a + (b + c)
  {
  }

  lemma {:induction false} TwoCalls(t: Table, a: string, b: string, rest: seq<string>)
    ensures CallbacksOf(t, [a] + [b] + rest) ==
            Callbacks(SlotsOf(t, a)) + Callbacks(SlotsOf(t, b)) + CallbacksOf(t, rest)
  {
    var tail := [b] + rest;
    assert [a] + [b] + rest == [a] + tail;
    CallsOne(t, a, tail);
    CallsOne(t, b, rest);
    Regroup(Callbacks(SlotsOf(t, a)), Callbacks(SlotsOf(t, b)), CallbacksOf(t, rest));
  }

  lemma {:induction false} PairCalls(t: Table, part: string, last: bool, rest: seq<string>)
    ensures CallbacksOf(t, (if last then [part] else []) + [part + "*"] + rest) ==
            GlobPair(t, part, last) + CallbacksOf(t, rest)
  {
    if last {
      TwoCalls(t, part, part + "*", rest);
    } else {
      assert [] + [part + "*"] + rest == [part + "*"] + rest;
      CallsOne(t, part + "*", rest);
    }
  }

  // ---------------------------------------------------------------- runs

  datatype Op =
    | AddListener(channel: string, callback: nat)
    | RemoveListener(handle: Handle)
    | SubscribeTo(channel: string, callback: nat)
    | UnsubscribeFrom(handle: Handle)
    | Handshake            // clears the subscriptions; the server starts a new session
    | ClearSubscriptions
    | ClearListeners

  function Step(r: Registry, op: Op): Registry {
    match op
    case AddListener(channel, callback) => r.(listeners := AddEntry(r.listeners, channel, Entry(callback, false)))
    case RemoveListener(h) => r.(listeners := RemoveEntry(r.listeners, h))
    case SubscribeTo(channel, callback) => DoSubscribe(r, channel, callback)
    case UnsubscribeFrom(h) => DoUnsubscribe(r, h)
    case Handshake => r.(listeners := ClearedTable(r.listeners), messages := [])
    case ClearSubscriptions => r.(listeners := ClearedTable(r.listeners))
    case ClearListeners => r.(listeners := map[])
  }

  function Run(r: Registry, ops: seq<Op>): Registry
    decreases ops
  {
    if ops == [] then r else Step(Run(r, ops[..|ops| - 1]), ops[|ops| - 1])
  }

  /** What an operation does to the listeners of one channel. */
  function SlotStep(s: Slots, op: Op, channel: string): Slots {
    match op
    case AddListener(c, callback) => if c == channel then s + [Some(Entry(callback, false))] else s
    case RemoveListener(h) => if h.channel == channel && h.index < |s| then s[h.index := None] else s
    case SubscribeTo(c, callback) => if c == channel then s + [Some(Entry(callback, true))] else s
    case UnsubscribeFrom(h) => if h.channel == channel && h.index < |s| then s[h.index := None] else s
    case Handshake => ClearedSlots(s)
    case ClearSubscriptions => ClearedSlots(s)
    case ClearListeners => []
  }

  lemma {:induction false} StepSlots(r: Registry, op: Op, channel: string)
    ensures SlotsOf(Step(r, op).listeners, channel) == SlotStep(SlotsOf(r.listeners, channel), op, channel)
  {
  }

  // ---------------------------------------------------------------- handles

  lemma {:induction false} StepGrows(r: Registry, op: Op, channel: string)
    requires op != ClearListeners
    ensures |SlotsOf(Step(r, op).listeners, channel)| >= |SlotsOf(r.listeners, channel)|
  {
    StepSlots(r, op, channel);
  }

  /** Until the table is cleared its slots only ever grow, so an index handed out is never handed out again. */
  lemma {:induction false} HandlesNotReused(r: Registry, ops: seq<Op>, channel: string)
    requires ClearListeners !in ops
    ensures |SlotsOf(Run(r, ops).listeners, channel)| >= |SlotsOf(r.listeners, channel)|
  {
    if ops != [] {
      HandlesNotReused(r, ops[..|ops| - 1], channel);
      StepGrows(Run(r, ops[..|ops| - 1]), ops[|ops| - 1], channel);
    }
  }

  /** A subscription made at any later time has another handle, and removing any other handle leaves this one's slot
      alone. */
  lemma {:induction false} HandleIsOwn(r: Registry, callback: nat, ops: seq<Op>, channel: string, other: Handle)
    requires ClearListeners !in ops
    ensures var mine := Handle(channel, |SlotsOf(r.listeners, channel)|);
            var later := Run(Step(r, SubscribeTo(channel, callback)), ops);
            var slots := SlotsOf(later.listeners, channel);
            var kept := SlotsOf(Step(later, RemoveListener(other)).listeners, channel);
            && mine != Handle(channel, |slots|)
            && mine.index < |kept| == |slots|
            && (other != mine ==> kept[mine.index] == slots[mine.index])
  {
    HandlesNotReused(Step(r, SubscribeTo(channel, callback)), ops, channel);
    StepSlots(r, SubscribeTo(channel, callback), channel);
    StepSlots(Run(Step(r, SubscribeTo(channel, callback)), ops), RemoveListener(other), channel);
  }

  // ---------------------------------------------------------------- who is called

  function TimesCalled(calls: seq<nat>, callback: nat): nat {
    if calls == [] then 0 else (if calls[0] == callback then 1 else 0) + TimesCalled(calls[1..], callback)
  }

  lemma {:induction false} CalledConcat(a: seq<nat>, b: seq<nat>, callback: nat)
    ensures TimesCalled(a + b, callback) == TimesCalled(a, callback) + TimesCalled(b, callback)
  {
    if a == [] {
      assert a + b == b;
    } else {
      assert (a + b)[1..] == a[1..] + b;
      CalledConcat(a[1..], b, callback);
    }
  }

  /** The callback is registered once, at one handle. */
  predicate RegisteredAt(t: Table, callback: nat, h: Handle) {
    && h.channel in t && h.index < |t[h.channel]|
    && t[h.channel][h.index].Some? && t[h.channel][h.index].value.callback == callback
    && forall c, i :: c in t && 0 <= i < |t[c]| && t[c][i].Some? && t[c][i].value.callback == callback ==>
         c == h.channel && i == h.index
  }

  lemma {:induction false} SlotCalls(s: Slots, callback: nat)
    ensures NowhereBut(s, callback, -1) ==> TimesCalled(Callbacks(s), callback) == 0
    ensures forall k :: 0 <= k < |s| && s[k].Some? && s[k].value.callback == callback && NowhereBut(s, callback, k) ==>
              TimesCalled(Callbacks(s), callback) == 1
  {
    if s != [] {
      SlotCalls(s[1..], callback);
      CalledConcat(if s[0].Some? then [s[0].value.callback] else [], Callbacks(s[1..]), callback);
      forall k | 0 <= k < |s| && s[k].Some? && s[k].value.callback == callback && NowhereBut(s, callback, k)
        ensures TimesCalled(Callbacks(s), callback) == 1
      {
        if k > 0 {
          assert s[1..][k - 1] == s[k] && NowhereBut(s[1..], callback, k - 1);
        } else {
          assert NowhereBut(s[1..], callback, -1);
        }
      }
    }
  }

  predicate NowhereBut(s: Slots, callback: nat, k: int) {
    forall i :: 0 <= i < |s| && i != k && s[i].Some? ==> s[i].value.callback != callback
  }

  lemma {:induction false} PatternCalls(t: Table, patterns: seq<string>, callback: nat, h: Handle)
    requires RegisteredAt(t, callback, h)
    ensures TimesCalled(CallbacksOf(t, patterns), callback) == Times(patterns, h.channel)
  {
    if patterns != [] {
      PatternCalls(t, patterns[1..], callback, h);
      CalledConcat(Callbacks(SlotsOf(t, patterns[0])), CallbacksOf(t, patterns[1..]), callback);
      SlotCalls(SlotsOf(t, patterns[0]), callback);
      assert NowhereBut(SlotsOf(t, patterns[0]), callback, if patterns[0] == h.channel then h.index else -1);
    }
  }

  /** A registered callback is made for a message on a channel exactly once if its pattern is the channel or matches it
      under section 2.2.1, and not at all otherwise. */
  lemma {:induction false} NotificationTheorem(t: Table, callback: nat, h: Handle, channel: string)
    requires RegisteredAt(t, callback, h) && !EndsInWildcard(channel)
    ensures TimesCalled(CallbacksOf(t, LookedUp(channel)), callback) ==
            if h.channel == channel || Matches(h.channel, channel) then 1 else 0
  {
    PatternCalls(t, LookedUp(channel), callback, h);
    GlobbingTheorem(channel, h.channel);
  }
}
