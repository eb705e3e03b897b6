/** In which order `_notifyListeners` of media/js/cometd.js makes the callbacks for one message. */
module Notifications {
  import opened Channels
  import opened Listeners

  function Segments(pattern: string): nat {
    |Split(pattern)|
  }

  function LastSegment(pattern: string): string {
    var p := Split(pattern);
    p[|p| - 1]
  }

  /** The channel itself comes first; then patterns with more segments come before patterns with fewer, and the
      single-segment wildcard before the recursive one. */
  predicate PatternBefore(p: string, q: string, channel: string) {
    p != q && q != channel &&
    (p == channel || Segments(p) > Segments(q) ||
     (Segments(p) == Segments(q) && LastSegment(p) == "*" && LastSegment(q) == "**"))
  }

  /** Within a pattern the callbacks come in the order in which they were registered. */
  predicate Earlier(h: Handle, k: Handle, channel: string) {
    if h.channel == k.channel then h.index < k.index else PatternBefore(h.channel, k.channel, channel)
  }

  /** A registration for this pattern hears of messages on this channel. */
  predicate Hears(pattern: string, channel: string) {
    pattern == channel || Matches(pattern, channel)
  }

  predicate CalledBefore(calls: seq<nat>, f: nat, g: nat) {
    exists i, j :: 0 <= i < j < |calls| && calls[i] == f && calls[j] == g
  }

  // ---------------------------------------------------------------- the order of the patterns

  predicate Descending(ps: seq<string>) {
    forall a, b :: 0 <= a < b < |ps| ==>
      Segments(ps[a]) > Segments(ps[b]) ||
      (Segments(ps[a]) == Segments(ps[b]) && LastSegment(ps[a]) == "*" && LastSegment(ps[b]) == "**")
  }

  lemma {:induction false} GlobsDescend(parts: seq<string>, i: nat)
    requires i < |parts| && forall j :: 0 <= j < |parts| ==> '/' !in parts[j]
    ensures Descending(Globs(parts, i))
    ensures forall a :: 0 <= a < |Globs(parts, i)| ==> Segments(Globs(parts, i)[a]) <= i + 1
  {
    if i > 0 {
      GlobsDescend(parts, i - 1);
      var prefix := Join(parts[..i]) + "/*";
      WildcardParts(parts[..i], "*");
      WildcardParts(parts[..i], "**");
      assert Join(parts[..i]) + "/" + "*" == prefix;
      assert Join(parts[..i]) + "/" + "**" == prefix + "*";
    }
  }

  lemma {:induction false} WildcardParts(prefix: seq<string>, wildcard: string)
    requires |prefix| >= 1 && '/' !in wildcard && forall j :: 0 <= j < |prefix| ==> '/' !in prefix[j]
    ensures var pattern := Join(prefix) + "/" + wildcard;
            Segments(pattern) == |prefix| + 1 && LastSegment(pattern) == wildcard
  {
    JoinWildcard(prefix, wildcard);
    SplitJoin(prefix + [wildcard]);
  }

  lemma {:induction false} PlaceOf(ps: seq<string>, x: string) returns (i: nat)
    requires Times(ps, x) > 0
    ensures i < |ps| && ps[i] == x
  {
    if ps[0] == x {
      i := 0;
    } else {
      i := PlaceOf(ps[1..], x);
      i := i + 1;
    }
  }

  /** Of two different patterns that are looked up, the one that comes before is looked up before. */
  lemma {:induction false} LookedUpBefore(channel: string, p: string, q: string) returns (a: nat, b: nat)
    requires Hears(p, channel) && Hears(q, channel) && PatternBefore(p, q, channel)
    ensures a < b < |LookedUp(channel)| && LookedUp(channel)[a] == p && LookedUp(channel)[b] == q
  {
    var ps := LookedUp(channel);
    GlobbingTheorem(channel, p);
    GlobbingTheorem(channel, q);
    b := PlaceOf(ps, q);
    if p == channel {
      a := 0;
    } else {
      a := PlaceOf(ps, p);
      var parts := Split(channel);
      GlobsDescend(parts, |parts| - 1);
      var globs := Globs(parts, |parts| - 1);
      assert globs[a - 1] == p && globs[b - 1] == q;
    }
  }

  // ---------------------------------------------------------------- the order of the callbacks

  lemma {:induction false} CallbacksConcat(t: Table, ps: seq<string>, qs: seq<string>)
    ensures CallbacksOf(t, ps + qs) == CallbacksOf(t, ps) + CallbacksOf(t, qs)
  {
    if ps == [] {
      assert ps + qs == qs;
    } else {
      assert (ps + qs)[1..] == ps[1..] + qs;
      CallbacksConcat(t, ps[1..], qs);
    }
  }

  lemma {:induction false} SlotsConcat(s: Slots, u: Slots)
    ensures Callbacks(s + u) == Callbacks(s) + Callbacks(u)
  {
    if s == [] {
      assert s + u == u;
    } else {
      var head := if s[0].Some? then [s[0].value.callback] else [];
      assert (s + u)[1..] == s[1..] + u && (s + u)[0] == s[0];
      SlotsConcat(s[1..], u);
      Regroup(head, Callbacks(s[1..]), Callbacks(u));
    }
  }

  lemma {:induction false} SlotCalled(s: Slots, i: nat)
    requires i < |s| && s[i].Some?
    ensures s[i].value.callback in Callbacks(s)
  {
    if i > 0 { SlotCalled(s[1..], i - 1); }
  }

  lemma {:induction false} PatternCalled(t: Table, ps: seq<string>, a: nat, i: nat)
    requires a < |ps| && i < |SlotsOf(t, ps[a])| && SlotsOf(t, ps[a])[i].Some?
    ensures SlotsOf(t, ps[a])[i].value.callback in CallbacksOf(t, ps)
  {
    if a == 0 {
      SlotCalled(SlotsOf(t, ps[0]), i);
    } else {
      PatternCalled(t, ps[1..], a - 1, i);
    }
  }

  lemma {:induction false} BeforeByParts(s: seq<nat>, u: seq<nat>, f: nat, g: nat)
    requires f in s && g in u
    ensures CalledBefore(s + u, f, g)
  {
    var i :| 0 <= i < |s| && s[i] == f;
    var j :| 0 <= j < |u| && u[j] == g;
    assert (s + u)[i] == f && (s + u)[|s| + j] == g;
  }

  lemma {:induction false} BeforeWithin(a: seq<nat>, s: seq<nat>, b: seq<nat>, f: nat, g: nat)
    requires CalledBefore(s, f, g)
    ensures CalledBefore(a + s + b, f, g)
  {
    var i, j :| 0 <= i < j < |s| && s[i] == f && s[j] == g;
    assert (a + s + b)[|a| + i] == f && (a + s + b)[|a| + j] == g;
  }

  lemma {:induction false} OnePattern(t: Table, ps: seq<string>, a: nat, f: nat, h: Handle, g: nat, k: Handle)
    requires RegisteredAt(t, f, h) && RegisteredAt(t, g, k) && h.channel == k.channel && h.index < k.index
    requires a < |ps| && ps[a] == h.channel
    ensures CalledBefore(CallbacksOf(t, ps), f, g)
  {
    var s := SlotsOf(t, ps[a]);
    assert s == s[..k.index] + s[k.index..];
    SlotsConcat(s[..k.index], s[k.index..]);
    SlotCalled(s[..k.index], h.index);
    SlotCalled(s[k.index..], 0);
    BeforeByParts(Callbacks(s[..k.index]), Callbacks(s[k.index..]), f, g);
    assert ps == ps[..a] + ([ps[a]] + ps[a + 1..]);
    CallbacksConcat(t, ps[..a], [ps[a]] + ps[a + 1..]);
    CallsOne(t, ps[a], ps[a + 1..]);
    BeforeWithin(CallbacksOf(t, ps[..a]), Callbacks(s), CallbacksOf(t, ps[a + 1..]), f, g);
    Regroup(CallbacksOf(t, ps[..a]), Callbacks(s), CallbacksOf(t, ps[a + 1..]));
  }

  lemma {:induction false} TwoPatterns(t: Table, ps: seq<string>, a: nat, b: nat, f: nat, h: Handle, g: nat, k: Handle)
    requires RegisteredAt(t, f, h) && RegisteredAt(t, g, k)
    requires a < b < |ps| && ps[a] == h.channel && ps[b] == k.channel
    ensures CalledBefore(CallbacksOf(t, ps), f, g)
  {
    assert ps == ps[..b] + ps[b..];
    CallbacksConcat(t, ps[..b], ps[b..]);
    PatternCalled(t, ps[..b], a, h.index);
    PatternCalled(t, ps[b..], 0, k.index);
    BeforeByParts(CallbacksOf(t, ps[..b]), CallbacksOf(t, ps[b..]), f, g);
  }

  lemma {:induction false} EarlierIsCalledBefore(t: Table, f: nat, h: Handle, g: nat, k: Handle, channel: string)
    requires RegisteredAt(t, f, h) && RegisteredAt(t, g, k)
    requires Hears(h.channel, channel) && Hears(k.channel, channel) && Earlier(h, k, channel)
    ensures CalledBefore(CallbacksOf(t, LookedUp(channel)), f, g)
  {
    var ps := LookedUp(channel);
    if h.channel == k.channel {
      GlobbingTheorem(channel, h.channel);
      var a := PlaceOf(ps, h.channel);
      OnePattern(t, ps, a, f, h, g, k);
    } else {
      var a, b := LookedUpBefore(channel, h.channel, k.channel);
      TwoPatterns(t, ps, a, b, f, h, g, k);
    }
  }

  // ---------------------------------------------------------------- both directions

  /** Patterns that match the same channel with as many segments differ in their wildcards only. */
  lemma {:induction false} EitherBefore(p: string, q: string, channel: string)
    requires Hears(p, channel) && Hears(q, channel) && p != q
    ensures PatternBefore(p, q, channel) || PatternBefore(q, p, channel)
  {
    var x, y := Split(p), Split(q);
    if p != channel && q != channel && |x| == |y| && LastSegment(p) == LastSegment(q) {
      assert x == x[..|x| - 1] + [x[|x| - 1]] && y == y[..|y| - 1] + [y[|y| - 1]];
      JoinSplit(p);
      JoinSplit(q);
    }
  }

  lemma {:induction false} CalledAt(calls: seq<nat>, f: nat, i: nat)
    requires i < |calls| && calls[i] == f
    ensures TimesCalled(calls, f) >= 1
  {
    if i > 0 { CalledAt(calls[1..], f, i - 1); }
  }

  lemma {:induction false} CalledOnce(calls: seq<nat>, f: nat, i: nat, j: nat)
    requires TimesCalled(calls, f) == 1 && i < |calls| && j < |calls| && calls[i] == f && calls[j] == f
    ensures i == j
  {
    if i > 0 && j > 0 {
      CalledAt(calls[1..], f, i - 1);
      CalledOnce(calls[1..], f, i - 1, j - 1);
    } else if i > 0 {
      CalledAt(calls[1..], f, i - 1);
    } else if j > 0 {
      CalledAt(calls[1..], f, j - 1);
    }
  }

  lemma {:induction false} NotBothWays(calls: seq<nat>, f: nat, g: nat)
    requires TimesCalled(calls, f) == 1 && TimesCalled(calls, g) == 1 && CalledBefore(calls, f, g)
    ensures !CalledBefore(calls, g, f)
  {
    var i, j :| 0 <= i < j < |calls| && calls[i] == f && calls[j] == g;
    if CalledBefore(calls, g, f) {
      var k, l :| 0 <= k < l < |calls| && calls[k] == g && calls[l] == f;
      CalledOnce(calls, f, i, l);
      CalledOnce(calls, g, j, k);
    }
  }

  /** Of two callbacks that hear of a message, one is called before the other if and only if its pattern comes before or
      it was registered before for the same pattern. */
  lemma {:induction false} OrderTheorem(t: Table, f: nat, h: Handle, g: nat, k: Handle, channel: string)
    requires RegisteredAt(t, f, h) && RegisteredAt(t, g, k) && f != g && !EndsInWildcard(channel)
    requires Hears(h.channel, channel) && Hears(k.channel, channel)
    ensures CalledBefore(CallbacksOf(t, LookedUp(channel)), f, g) <==> Earlier(h, k, channel)
  {
    var calls := CallbacksOf(t, LookedUp(channel));
    if Earlier(h, k, channel) {
      EarlierIsCalledBefore(t, f, h, g, k, channel);
    } else {
      if h.channel != k.channel { EitherBefore(h.channel, k.channel, channel); }
      EarlierIsCalledBefore(t, g, k, f, h, channel);
      NotificationTheorem(t, f, h, channel);
      NotificationTheorem(t, g, k, channel);
      NotBothWays(calls, g, f);
    }
  }
}
