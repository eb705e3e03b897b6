/** Whether the subscribe and unsubscribe messages that were submitted mirror the subscriptions in the listener
    table. */
module Mirrors {
  import opened Options
  import opened Listeners

  const EMPTY := Registry(map[], [], [])

  /** Whether the server, following the messages, has the client subscribed to the channel. */
  predicate Replayed(messages: seq<SubMessage>, channel: string) {
    messages != [] &&
    var last := messages[|messages| - 1];
    if last.channel == channel then last.Subscribe? else Replayed(messages[..|messages| - 1], channel)
  }

  predicate HasSubscription(s: Slots) {
    exists i :: 0 <= i < |s| && s[i].Some? && s[i].value.subscription
  }

  /** The server has the client subscribed to the channel exactly when a subscription is live. */
  predicate Mirrored(r: Registry, channel: string) {
    Replayed(r.messages, channel) <==> HasSubscription(SlotsOf(r.listeners, channel))
  }

  lemma {:induction false} ReplayedOther(messages: seq<SubMessage>, m: SubMessage, channel: string)
    ensures Replayed(messages + [m], channel) ==
            if m.channel == channel then m.Subscribe? else Replayed(messages, channel)
  {
    assert (messages + [m])[..|messages|] == messages;
  }

  lemma {:induction false} LiveIfSubscribed(s: Slots)
    ensures HasSubscription(s) ==> HasLive(s)
  {
    if HasSubscription(s) {
      var i :| 0 <= i < |s| && s[i].Some? && s[i].value.subscription;
      assert s[i].Some?;
    }
  }

  lemma {:induction false} Appended(s: Slots, e: Entry)
    ensures HasSubscription(s + [Some(e)]) <==> HasSubscription(s) || e.subscription
    ensures HasLive(s + [Some(e)])
  {
    var t := s + [Some(e)];
    assert t[|s|] == Some(e);
    if HasSubscription(s) {
      var i :| 0 <= i < |s| && s[i].Some? && s[i].value.subscription;
      assert t[i] == s[i];
    }
    if HasSubscription(t) && !e.subscription {
      var i :| 0 <= i < |t| && t[i].Some? && t[i].value.subscription;
      assert s[i] == t[i];
    }
  }

  lemma {:induction false} Cleared(s: Slots)
    ensures !HasSubscription(ClearedSlots(s))
  {
  }

  // ---------------------------------------------------------------- one operation

  /** The last word on the channel goes to the server: it starts a new session, or is told of the first or the last
      callback. */
  predicate Settles(s: Slots, op: Op, channel: string) {
    match op
    case SubscribeTo(c, callback) => c == channel && !HasLive(s)
    case UnsubscribeFrom(h) => h.channel == channel && !HasLive(SlotStep(s, op, channel))
    case Handshake => true
    case _ => false
  }

  /** The operation does not change whether a subscription is live; nothing else makes up for a message not sent. */
  predicate Neutral(s: Slots, op: Op, channel: string) {
    HasSubscription(SlotStep(s, op, channel)) == HasSubscription(s)
  }

  lemma {:induction false} SubscribeMirror(r: Registry, c: string, callback: nat, channel: string)
    ensures var s, op := SlotsOf(r.listeners, channel), SubscribeTo(c, callback);
            Mirrored(Step(r, op), channel) <==>
            Settles(s, op, channel) || (Mirrored(r, channel) <==> Neutral(s, op, channel))
  {
    var s := SlotsOf(r.listeners, channel);
    StepSlots(r, SubscribeTo(c, callback), channel);
    ReplayedOther(r.messages, Subscribe(c), channel);
    Appended(s, Entry(callback, true));
  }

  lemma {:induction false} UnsubscribeMirror(r: Registry, h: Handle, channel: string)
    ensures var s, op := SlotsOf(r.listeners, channel), UnsubscribeFrom(h);
            Mirrored(Step(r, op), channel) <==>
            Settles(s, op, channel) || (Mirrored(r, channel) <==> Neutral(s, op, channel))
  {
    var op := UnsubscribeFrom(h);
    StepSlots(r, op, channel);
    ReplayedOther(r.messages, Unsubscribe(h.channel), channel);
    LiveIfSubscribed(SlotStep(SlotsOf(r.listeners, channel), op, channel));
  }

  /** For every operation in every state: the mirror is right afterwards if and only if the operation settles it, or it
      was right before and the operation is neutral, or it was wrong before and the operation is not. */
  lemma {:induction false} StepMirror(r: Registry, op: Op, channel: string)
    ensures var s := SlotsOf(r.listeners, channel);
            Mirrored(Step(r, op), channel) <==>
            Settles(s, op, channel) || (Mirrored(r, channel) <==> Neutral(s, op, channel))
  {
    var s := SlotsOf(r.listeners, channel);
    match op
    case SubscribeTo(c, callback) => SubscribeMirror(r, c, callback, channel);
    case UnsubscribeFrom(h) => UnsubscribeMirror(r, h, channel);
    case _ =>
      StepSlots(r, op, channel);
      Cleared(s);
  }

  /** The condition under which a right mirror stays right, operation by operation, in terms of the slots alone. */
  predicate Keeps(s: Slots, op: Op, channel: string) {
    match op
    case AddListener(c, callback) => true
    case SubscribeTo(c, callback) => c == channel ==> !HasLive(s) || HasSubscription(s)
    case UnsubscribeFrom(h) =>
      h.channel == channel && HasLive(SlotStep(s, op, channel)) ==>
        (HasSubscription(s) ==> HasSubscription(SlotStep(s, op, channel)))
    case RemoveListener(h) =>
      h.channel == channel ==> (HasSubscription(s) ==> HasSubscription(SlotStep(s, op, channel)))
    case Handshake => true
    case ClearSubscriptions => !HasSubscription(s)
    case ClearListeners => !HasSubscription(s)
  }

  lemma {:induction false} Removed(s: Slots, index: nat)
    requires index < |s|
    ensures HasSubscription(s[index := None]) ==> HasSubscription(s)
    ensures HasLive(s[index := None]) ==> HasLive(s)
  {
    var t := s[index := None];
    if HasSubscription(t) {
      var i :| 0 <= i < |t| && t[i].Some? && t[i].value.subscription;
      assert s[i] == t[i];
    }
    if HasLive(t) {
      var i :| 0 <= i < |t| && t[i].Some?;
      assert s[i] == t[i];
    }
  }

  /** A right mirror stays right if and only if that condition holds: a subscription is not the first one beside a
      plain listener, and the last one is neither unsubscribed beside a plain listener, nor removed or cleared as a
      listener. */
  lemma {:induction false} KeepsIff(r: Registry, op: Op, channel: string)
    requires Mirrored(r, channel)
    ensures Mirrored(Step(r, op), channel) <==> Keeps(SlotsOf(r.listeners, channel), op, channel)
  {
    var s := SlotsOf(r.listeners, channel);
    StepMirror(r, op, channel);
    Cleared(s);
    match op
    case AddListener(c, callback) => Appended(s, Entry(callback, false));
    case SubscribeTo(c, callback) => Appended(s, Entry(callback, true));
    case UnsubscribeFrom(h) => if h.index < |s| { Removed(s, h.index); }
    case RemoveListener(h) => if h.index < |s| { Removed(s, h.index); }
    case _ =>
  }

  // ---------------------------------------------------------------- runs

  /** Whether the mirror is right after a run, followed from the slots alone, without the messages. */
  predicate Followed(ops: seq<Op>, channel: string) {
    ops == [] ||
    var before, op := ops[..|ops| - 1], ops[|ops| - 1];
    var s := SlotsOf(Run(EMPTY, before).listeners, channel);
    Settles(s, op, channel) || (Followed(before, channel) <==> Neutral(s, op, channel))
  }

  /** For every sequence of operations, with plain listeners or without: the messages submitted since the last handshake
      mirror the live subscriptions of the channel if and only if that is so. */
  lemma {:induction false} FollowedTheorem(ops: seq<Op>, channel: string)
    ensures Mirrored(Run(EMPTY, ops), channel) <==> Followed(ops, channel)
  {
    if ops != [] {
      FollowedTheorem(ops[..|ops| - 1], channel);
      StepMirror(Run(EMPTY, ops[..|ops| - 1]), ops[|ops| - 1], channel);
    }
  }

  /** The mirror is right at every moment of the run. */
  predicate AlwaysMirrored(ops: seq<Op>, channel: string) {
    Mirrored(Run(EMPTY, ops), channel) && (ops != [] ==> AlwaysMirrored(ops[..|ops| - 1], channel))
  }

  predicate AlwaysKept(ops: seq<Op>, channel: string) {
    ops != [] ==>
      && AlwaysKept(ops[..|ops| - 1], channel)
      && Keeps(SlotsOf(Run(EMPTY, ops[..|ops| - 1]).listeners, channel), ops[|ops| - 1], channel)
  }

  /** And that is so if and only if every operation keeps it. */
  lemma {:induction false} AlwaysMirroredIff(ops: seq<Op>, channel: string)
    ensures AlwaysMirrored(ops, channel) <==> AlwaysKept(ops, channel)
  {
    if ops != [] {
      var before := ops[..|ops| - 1];
      AlwaysMirroredIff(before, channel);
      assert AlwaysMirrored(before, channel) ==> Mirrored(Run(EMPTY, before), channel);
      if Mirrored(Run(EMPTY, before), channel) { KeepsIff(Run(EMPTY, before), ops[|ops| - 1], channel); }
    }
  }

  /** The operation uses the channel, if at all, through subscribe, unsubscribe and the handshake. */
  predicate SubscriptionOnly(op: Op, channel: string) {
    match op
    case AddListener(c, _) => c != channel
    case RemoveListener(h) => h.channel != channel
    case ClearSubscriptions => false
    case ClearListeners => false
    case _ => true
  }

  predicate AllSubscriptions(s: Slots) {
    forall i :: 0 <= i < |s| && s[i].Some? ==> s[i].value.subscription
  }

  lemma {:induction false} OnlySubscriptions(ops: seq<Op>, channel: string)
    requires forall op :: op in ops ==> SubscriptionOnly(op, channel)
    ensures AllSubscriptions(SlotsOf(Run(EMPTY, ops).listeners, channel))
  {
    if ops != [] {
      OnlySubscriptions(ops[..|ops| - 1], channel);
      assert ops[|ops| - 1] in ops;
      StepSlots(Run(EMPTY, ops[..|ops| - 1]), ops[|ops| - 1], channel);
    }
  }

  lemma {:induction false} SubscribedIfLive(s: Slots)
    requires AllSubscriptions(s)
    ensures HasLive(s) ==> HasSubscription(s)
  {
    if HasLive(s) {
      var i :| 0 <= i < |s| && s[i].Some?;
      assert s[i].value.subscription;
    }
  }

  /** For a channel used only through subscribe and unsubscribe, replaying the messages submitted since the last
      handshake gives the channel exactly when it has a live callback. */
  lemma {:induction false} MirrorTheorem(ops: seq<Op>, channel: string)
    requires forall op :: op in ops ==> SubscriptionOnly(op, channel)
    ensures var r := Run(EMPTY, ops);
            Replayed(r.messages, channel) <==> HasLive(SlotsOf(r.listeners, channel))
  {
    var r := Run(EMPTY, ops);
    OnlySubscriptions(ops, channel);
    LiveIfSubscribed(SlotsOf(r.listeners, channel));
    SubscribedIfLive(SlotsOf(r.listeners, channel));
    if ops != [] {
      var before, op := ops[..|ops| - 1], ops[|ops| - 1];
      var q := Run(EMPTY, before);
      MirrorTheorem(before, channel);
      OnlySubscriptions(before, channel);
      LiveIfSubscribed(SlotsOf(q.listeners, channel));
      SubscribedIfLive(SlotsOf(q.listeners, channel));
      OnlyKeeps(q, op, channel);
    }
  }

  lemma {:induction false} OnlyKeeps(r: Registry, op: Op, channel: string)
    requires SubscriptionOnly(op, channel) && Mirrored(r, channel)
    requires AllSubscriptions(SlotsOf(r.listeners, channel))
    ensures Mirrored(Step(r, op), channel)
  {
    var s := SlotsOf(r.listeners, channel);
    StepSlots(r, op, channel);
    SubscribedIfLive(s);
    SubscribedIfLive(SlotStep(s, op, channel));
    KeepsIff(r, op, channel);
  }

  /** On a channel that also has a plain listener the server is never told of the subscription. */
  lemma {:induction false} PlainListenerHidesSubscription(channel: string)
    ensures var r := Run(EMPTY, [AddListener(channel, 0), SubscribeTo(channel, 1)]);
            Callbacks(SlotsOf(r.listeners, channel)) == [0, 1] && !Replayed(r.messages, channel)
  {
    var ops := [AddListener(channel, 0), SubscribeTo(channel, 1)];
    assert ops[..1] == [AddListener(channel, 0)] && ops[..1][..0] == [];
    var r1 := Step(EMPTY, ops[0]);
    assert Run(EMPTY, ops[..1]) == r1;
    StepSlots(EMPTY, ops[0], channel);
    assert SlotsOf(r1.listeners, channel)[0].Some?;
    StepSlots(r1, ops[1], channel);
    var s := SlotsOf(Step(r1, ops[1]).listeners, channel);
    assert s == [Some(Entry(0, false)), Some(Entry(1, true))];
    assert s[1..] == [Some(Entry(1, true))];
    assert Callbacks(s[1..]) == [1];
  }
}
