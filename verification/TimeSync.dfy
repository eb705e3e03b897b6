/** The clock estimator of media/js/cometd/TimeSyncExtension.js: averages over a sliding window of samples. */
module TimeSync {
  import opened Options

  /** What the server echoes: when the client sent, how long the server held the message, when the server received. */
  datatype Stamp = Stamp(tc: real, ts: real, p: real)

  datatype Clock = Clock(lags: seq<real>, offsets: seq<real>, lag: int, offset: int)

  function SampleLag(s: Stamp, now: real): real {
    (now - s.tc - s.p) / 2.0
  }

  function SampleOffset(s: Stamp, now: real): real {
    s.ts - s.tc - SampleLag(s, now)
  }

  /** A window of at most `max` samples after one more. */
  function Slide(window: seq<real>, x: real, max: nat): seq<real> {
    var w := window + [x];
    if |w| > max then w[1..] else w
  }

  function Sum(s: seq<real>): real {
    if s == [] then 0.0 else Sum(s[..|s| - 1]) + s[|s| - 1]
  }

  lemma {:induction false} SumNext(s: seq<real>, i: nat)
    requires i < |s|
    ensures Sum(s[..i + 1]) == Sum(s[..i]) + s[i]
  {
    assert s[..i + 1][..i] == s[..i];
  }

  /** `parseInt(x.toFixed())`: to the nearest integer, halves away from zero. */
  function Rounded(x: real): int {
    if x >= 0.0 then (x + 0.5).Floor else -(-x + 0.5).Floor
  }

  /** `(sum / n).toFixed()` as a number. */
  function Average(sum: real, n: nat): int
    requires n > 0
  {
    Rounded(sum / n as real)
  }

  function Mean(s: seq<real>): int
    requires s != []
  {
    Average(Sum(s), |s|)
  }

  function Observe(c: Clock, s: Stamp, now: real, max: nat): Clock
    requires max > 0
  {
    var lags, offsets := Slide(c.lags, SampleLag(s, now), max), Slide(c.offsets, SampleOffset(s, now), max);
    Clock(lags, offsets, Mean(lags), Mean(offsets))
  }

  /** What can happen to the extension: a message comes in, or it is unregistered. */
  datatype Event = Incoming(channel: string, timesync: Option<Stamp>, now: real) | Unregistered

  /** Messages of meta channels that carry a stamp are samples. */
  predicate IsSample(e: Event) {
    e.Incoming? && "/meta/" <= e.channel && e.timesync.Some?
  }

  function Received(c: Clock, channel: string, timesync: Option<Stamp>, now: real, max: nat): Clock
    requires max > 0
  {
    if "/meta/" <= channel && timesync.Some? then Observe(c, timesync.value, now, max) else c
  }

  function Step(c: Clock, e: Event, max: nat): Clock
    requires max > 0
  {
    match e
    case Incoming(channel, timesync, now) => Received(c, channel, timesync, now, max)
    case Unregistered => c.(lags := [], offsets := [])
  }

  /** The loop of `incoming` that adds up both windows. */
  method Sums(lags: seq<real>, offsets: seq<real>) returns (lagsSum: real, offsetsSum: real)
    requires |lags| == |offsets|
    ensures lagsSum == Sum(lags) && offsetsSum == Sum(offsets)
  {
    lagsSum, offsetsSum := 0.0, 0.0;
    for i := 0 to |offsets|
      invariant lagsSum == Sum(lags[..i]) && offsetsSum == Sum(offsets[..i])
    {
      SumNext(lags, i);
      SumNext(offsets, i);
      lagsSum := lagsSum + lags[i];
      offsetsSum := offsetsSum + offsets[i];
    }
    assert lags[..|lags|] == lags && offsets[..|lags|] == offsets;
  }

  class TimeSyncExtension {
    const maxSamples: nat
    var lags: seq<real>
    var offsets: seq<real>
    var lag: int
    var offset: int

    ghost predicate Valid()
      reads this
    {
      maxSamples > 0 && |lags| == |offsets| <= maxSamples
    }

    ghost function View(): Clock
      reads this
    {
      Clock(lags, offsets, lag, offset)
    }

    /** Ten samples unless a positive number is configured. */
    constructor (configured: nat)
      ensures Valid() && maxSamples == (if configured == 0 then 10 else configured)
      ensures View() == Clock([], [], 0, 0)
    {
      maxSamples := if configured == 0 then 10 else configured;
      lags, offsets, lag, offset := [], [], 0, 0;
    }

    method Unregistered()
      requires Valid()
      modifies this
      ensures Valid() && View() == Step(old(View()), Event.Unregistered, maxSamples)
    {
      lags, offsets := [], [];
    }

    method Incoming(channel: string, timesync: Option<Stamp>, now: real)
      requires Valid()
      modifies this
      ensures Valid()
      ensures View() == Received(old(View()), channel, timesync, now, maxSamples)
    {
      if "/meta/" <= channel {
        if timesync.Some? {
          var s := timesync.value;
          var l2 := (now - s.tc - s.p) / 2.0;
          var o2 := s.ts - s.tc - l2;
          lags := lags + [l2];
          offsets := offsets + [o2];
          if |offsets| > maxSamples {
            offsets := offsets[1..];
            lags := lags[1..];
          }
          var samples := |offsets|;
          var lagsSum, offsetsSum := Sums(lags, offsets);
          lag := Average(lagsSum, samples);
          offset := Average(offsetsSum, samples);
        }
      }
    }
  }

  // ---------------------------------------------------------------- what is estimated

  /** One message to the server and back: sent at client time `sent`, `up` on its way there, held for `held`, `down` on
      its way back. */
  datatype Exchange = Exchange(sent: real, up: real, held: real, down: real)

  /** The stamp that a server whose clock is ahead by `theta` sends. */
  function StampOf(x: Exchange, theta: real): Stamp {
    Stamp(x.sent, x.sent + x.up + theta, x.held)
  }

  function ReturnTime(x: Exchange): real {
    x.sent + x.up + x.held + x.down
  }

  function Latest<T>(s: seq<T>, n: nat): seq<T> {
    if |s| > n then s[|s| - n..] else s
  }

  lemma {:induction false} SlideLatest(s: seq<real>, x: real, max: nat)
    requires max > 0
    ensures Slide(Latest(s, max), x, max) == Latest(s + [x], max)
  {
  }

  function After(es: seq<Event>, max: nat): Clock
    requires max > 0
  {
    if es == [] then Clock([], [], 0, 0) else Step(After(es[..|es| - 1], max), es[|es| - 1], max)
  }

  /** A stamp and the time at which it came back. */
  datatype Sample = Sample(stamp: Stamp, now: real)

  /** The samples taken since the extension was last unregistered. */
  function Samples(es: seq<Event>): seq<Sample> {
    if es == [] then []
    else
      var e := es[|es| - 1];
      if e.Unregistered? then []
      else Samples(es[..|es| - 1]) + if IsSample(e) then [Sample(e.timesync.value, e.now)] else []
  }

  function Lags(samples: seq<Sample>): (r: seq<real>)
    ensures |r| == |samples|
    ensures forall i :: 0 <= i < |r| ==> r[i] == SampleLag(samples[i].stamp, samples[i].now)
  {
    seq(|samples|, i requires 0 <= i < |samples| => SampleLag(samples[i].stamp, samples[i].now))
  }

  function Offsets(samples: seq<Sample>): (r: seq<real>)
    ensures |r| == |samples|
    ensures forall i :: 0 <= i < |r| ==> r[i] == SampleOffset(samples[i].stamp, samples[i].now)
  {
    seq(|samples|, i requires 0 <= i < |samples| => SampleOffset(samples[i].stamp, samples[i].now))
  }

  predicate Windows(c: Clock, samples: seq<Sample>, max: nat) {
    && c.lags == Latest(Lags(samples), max) && c.offsets == Latest(Offsets(samples), max)
    && |c.lags| == |c.offsets| == if |samples| < max then |samples| else max
  }

  lemma {:induction false} ObserveLatest(c: Clock, samples: seq<Sample>, s: Stamp, now: real, max: nat)
    requires max > 0 && Windows(c, samples, max)
    ensures Windows(Observe(c, s, now, max), samples + [Sample(s, now)], max)
  {
    assert Lags(samples + [Sample(s, now)]) == Lags(samples) + [SampleLag(s, now)];
    assert Offsets(samples + [Sample(s, now)]) == Offsets(samples) + [SampleOffset(s, now)];
    SlideLatest(Lags(samples), SampleLag(s, now), max);
    SlideLatest(Offsets(samples), SampleOffset(s, now), max);
  }

  /** After any run the two windows hold what the latest samples gave, of the same samples. */
  lemma {:induction false} WindowTheorem(es: seq<Event>, max: nat)
    requires max > 0
    ensures Windows(After(es, max), Samples(es), max)
  {
    if es != [] {
      var before, e := es[..|es| - 1], es[|es| - 1];
      WindowTheorem(before, max);
      if IsSample(e) {
        ObserveLatest(After(before, max), Samples(before), e.timesync.value, e.now, max);
      }
    }
  }

  // ---------------------------------------------------------------- the reported estimates

  /** `v` is nearest to `sum / n` among the integers, and of two equally near ones the one away from zero. */
  predicate Nearest(v: int, n: nat, sum: real) {
    Near(v as real, n as real, sum)
  }

  predicate Near(v: real, n: real, sum: real) {
    var low, high := (v - 0.5) * n, (v + 0.5) * n;
    if sum >= 0.0 then low <= sum < high else low < sum <= high
  }

  lemma {:induction false} Scale(x: real, y: real, n: real)
    requires n > 0.0
    ensures x <= y ==> x * n <= y * n
    ensures x < y ==> x * n < y * n
  {
    if x <= y { assert (y - x) * n >= 0.0; }
    if x < y { assert (y - x) * n > 0.0; }
  }

  lemma {:induction false} NearScaled(v: real, q: real, n: real)
    requires n > 0.0 && if q >= 0.0 then v - 0.5 <= q < v + 0.5 else v - 0.5 < q <= v + 0.5
    ensures Near(v, n, q * n)
  {
    assert 0.0 * n == 0.0;
    Scale(0.0, q, n);
    Scale(q, 0.0, n);
    Scale(v - 0.5, q, n);
    Scale(q, v + 0.5, n);
  }

  lemma {:induction false} RoundedNear(sum: real, n: real)
    requires n > 0.0
    ensures Near(Rounded(sum / n) as real, n, sum)
  {
    assert sum / n * n == sum;
    NearScaled(Rounded(sum / n) as real, sum / n, n);
  }

  lemma {:induction false} MeanNearest(s: seq<real>)
    requires s != []
    ensures Nearest(Mean(s), |s|, Sum(s))
  {
    RoundedNear(Sum(s), |s| as real);
  }

  lemma {:induction false} NotBoth(v: real, w: real, n: real, sum: real)
    requires n > 0.0 && v + 1.0 <= w && Near(v, n, sum)
    ensures !Near(w, n, sum)
  {
    Scale(v + 0.5, w - 0.5, n);
  }

  /** No other integer is. */
  lemma {:induction false} NearestUnique(v: int, w: int, n: nat, sum: real)
    requires n > 0 && Nearest(v, n, sum) && Nearest(w, n, sum)
    ensures v == w
  {
    if v < w { NotBoth(v as real, w as real, n as real, sum); }
    if w < v { NotBoth(w as real, v as real, n as real, sum); }
  }

  /** Half of what the round trips of the last `n` samples took. */
  function LagsTotal(samples: seq<Sample>, n: nat): real
    requires n <= |samples|
    decreases n
  {
    if n == 0 then 0.0
    else
      var last := samples[|samples| - 1];
      var s := last.stamp;
      LagsTotal(samples[..|samples| - 1], n - 1) + (last.now - s.tc - s.p) / 2.0
  }

  /** What is left of the difference of the clocks in the last `n` samples. */
  function OffsetsTotal(samples: seq<Sample>, n: nat): real
    requires n <= |samples|
    decreases n
  {
    if n == 0 then 0.0
    else
      var last := samples[|samples| - 1];
      var s := last.stamp;
      OffsetsTotal(samples[..|samples| - 1], n - 1) + (s.ts - s.tc - (last.now - s.tc - s.p) / 2.0)
  }

  lemma {:induction false} LatestSnoc(s: seq<real>, n: nat)
    requires 0 < n <= |s|
    ensures Sum(Latest(s, n)) == Sum(Latest(s[..|s| - 1], n - 1)) + s[|s| - 1]
  {
    assert Latest(s, n)[..n - 1] == Latest(s[..|s| - 1], n - 1);
  }

  lemma {:induction false} LagsSum(samples: seq<Sample>, n: nat)
    requires n <= |samples|
    ensures Sum(Latest(Lags(samples), n)) == LagsTotal(samples, n)
    decreases n
  {
    if n > 0 {
      LagsSum(samples[..|samples| - 1], n - 1);
      LatestSnoc(Lags(samples), n);
      assert Lags(samples)[..|samples| - 1] == Lags(samples[..|samples| - 1]);
    }
  }

  lemma {:induction false} OffsetsSum(samples: seq<Sample>, n: nat)
    requires n <= |samples|
    ensures Sum(Latest(Offsets(samples), n)) == OffsetsTotal(samples, n)
    decreases n
  {
    if n > 0 {
      OffsetsSum(samples[..|samples| - 1], n - 1);
      LatestSnoc(Offsets(samples), n);
      assert Offsets(samples)[..|samples| - 1] == Offsets(samples[..|samples| - 1]);
    }
  }

  /** In every run that ends with a sample, the reported lag and offset are the integers nearest to the averages of the
      last samples, as many as there are since the extension was last unregistered but at most `max`. */
  lemma {:induction false} ReportTheorem(es: seq<Event>, max: nat)
    requires max > 0 && es != [] && IsSample(es[|es| - 1])
    ensures var c, n := After(es, max), if |Samples(es)| < max then |Samples(es)| else max;
            && n > 0
            && Nearest(c.lag, n, LagsTotal(Samples(es), n))
            && Nearest(c.offset, n, OffsetsTotal(Samples(es), n))
  {
    var c, samples := After(es, max), Samples(es);
    WindowTheorem(es, max);
    var n := |c.lags|;
    assert c.lags == Latest(Lags(samples), n) && c.offsets == Latest(Offsets(samples), n);
    LagsSum(samples, n);
    OffsetsSum(samples, n);
    MeanNearest(c.lags);
    MeanNearest(c.offsets);
  }

  /** And any other event leaves what is reported. */
  lemma {:induction false} ReportKept(es: seq<Event>, e: Event, max: nat)
    requires max > 0 && !IsSample(e)
    ensures After(es + [e], max).lag == After(es, max).lag && After(es + [e], max).offset == After(es, max).offset
  {
    assert (es + [e])[..|es|] == es;
  }

  // ---------------------------------------------------------------- how good the estimates are

  /** The replies of a server whose clock is ahead by `theta`. */
  function Replies(xs: seq<Exchange>, theta: real): (es: seq<Event>)
    ensures |es| == |xs| && forall i :: 0 <= i < |es| ==> es[i] == Reply(xs[i], theta)
  {
    seq(|xs|, i requires 0 <= i < |xs| => Reply(xs[i], theta))
  }

  function Reply(x: Exchange, theta: real): Event {
    Event.Incoming("/meta/connect", Some(StampOf(x, theta)), ReturnTime(x))
  }

  function Observed(xs: seq<Exchange>, theta: real): (r: seq<Sample>)
    ensures |r| == |xs| && forall i :: 0 <= i < |r| ==> r[i] == Sample(StampOf(xs[i], theta), ReturnTime(xs[i]))
  {
    seq(|xs|, i requires 0 <= i < |xs| => Sample(StampOf(xs[i], theta), ReturnTime(xs[i])))
  }

  lemma {:induction false} AllReplies(xs: seq<Exchange>, theta: real)
    ensures Samples(Replies(xs, theta)) == Observed(xs, theta)
  {
    if xs != [] {
      var before := xs[..|xs| - 1];
      AllReplies(before, theta);
      assert Replies(xs, theta)[..|xs| - 1] == Replies(before, theta);
      assert IsSample(Reply(xs[|xs| - 1], theta));
    }
  }

  /** What the messages of the last `n` exchanges took on their way, both ways. */
  function Trips(xs: seq<Exchange>, n: nat): real
    requires n <= |xs|
    decreases n
  {
    if n == 0 then 0.0 else Trips(xs[..|xs| - 1], n - 1) + (xs[|xs| - 1].up + xs[|xs| - 1].down)
  }

  /** How much longer their ways to the server took than their ways back. */
  function Skews(xs: seq<Exchange>, n: nat): real
    requires n <= |xs|
    decreases n
  {
    if n == 0 then 0.0 else Skews(xs[..|xs| - 1], n - 1) + (xs[|xs| - 1].up - xs[|xs| - 1].down)
  }

  lemma {:induction false} TotalsOfExchanges(xs: seq<Exchange>, theta: real, n: nat)
    requires n <= |xs|
    ensures LagsTotal(Observed(xs, theta), n) == Trips(xs, n) / 2.0
    ensures OffsetsTotal(Observed(xs, theta), n) == n as real * theta + Skews(xs, n) / 2.0
    decreases n
  {
    if n > 0 {
      var before := xs[..|xs| - 1];
      TotalsOfExchanges(before, theta, n - 1);
      assert Observed(xs, theta)[..|xs| - 1] == Observed(before, theta);
      assert n as real * theta == (n - 1) as real * theta + theta;
    }
  }

  /** So the reported lag is half the average round trip, and the reported offset is off from the true one by half of
      how much longer the ways to the server took on the average, each to the nearest integer. */
  lemma {:induction false} EstimateTheorem(xs: seq<Exchange>, theta: real, max: nat, n: nat)
    requires max > 0 && xs != [] && n == if |xs| < max then |xs| else max
    ensures Nearest(After(Replies(xs, theta), max).lag, n, Trips(xs, n) / 2.0)
    ensures Nearest(After(Replies(xs, theta), max).offset, n, n as real * theta + Skews(xs, n) / 2.0)
  {
    var es := Replies(xs, theta);
    AllReplies(xs, theta);
    assert IsSample(es[|es| - 1]);
    ReportTheorem(es, max);
    TotalsOfExchanges(xs, theta, n);
  }

  function Abs(x: real): real {
    if x < 0.0 then -x else x
  }

  /** Values that are each within the matching bound of `theta` have a sum within the sum of the bounds. */
  lemma {:induction false} SumWithin(os: seq<real>, ls: seq<real>, theta: real)
    requires Within(os, ls, theta)
    ensures Abs(Sum(os) - (|os| as real) * theta) <= Sum(ls)
  {
    if os == [] {
      assert (|os| as real) * theta == 0.0;
    } else {
      var n := |os| - 1;
      SumWithin(os[..n], ls[..n], theta);
      assert ls != [] && Abs(os[n] - theta) <= ls[n];
      assert Sum(os) == Sum(os[..n]) + os[n] && Sum(ls) == Sum(ls[..n]) + ls[n];
      assert (|os| as real) * theta == (n as real) * theta + theta;
    }
  }

  /** Dividing by the number of samples. */
  lemma {:induction false} Scaled(sum: real, bound: real, n: real, theta: real)
    requires n > 0.0 && Abs(sum - n * theta) <= bound
    ensures Abs(sum / n - theta) <= bound / n
  {
    var q := sum / n - theta;
    assert q * n == sum - n * theta by { assert sum / n * n == sum; }
    assert bound / n * n == bound;
    Cancel(q, bound / n, n);
    Cancel(-q, bound / n, n);
  }

  lemma {:induction false} Cancel(q: real, r: real, n: real)
    requires n > 0.0 && q * n <= r * n
    ensures q <= r
  {
    assert (r - q) * n >= 0.0;
  }

  lemma {:induction false} RoundedClose(x: real)
    ensures Abs(Rounded(x) as real - x) <= 0.5
  {
  }

  lemma {:induction false} RoundedWithin(o: real, l: real, theta: real)
    requires Abs(o - theta) <= l
    ensures Abs(Rounded(o) as real - theta) <= Rounded(l) as real + 1.0
  {
    RoundedClose(o);
    RoundedClose(l);
  }

  lemma {:induction false} MeanWithin(os: seq<real>, ls: seq<real>, theta: real)
    requires os != [] && Within(os, ls, theta)
    ensures Abs(Mean(os) as real - theta) <= Mean(ls) as real + 1.0
  {
    SumWithin(os, ls, theta);
    Scaled(Sum(os), Sum(ls), |os| as real, theta);
    RoundedWithin(Sum(os) / |os| as real, Sum(ls) / |os| as real, theta);
  }

  predicate Within(os: seq<real>, ls: seq<real>, theta: real) {
    |os| == |ls| && forall i :: 0 <= i < |os| ==> Abs(os[i] - theta) <= ls[i]
  }

  lemma {:induction false} LatestWithin(os: seq<real>, ls: seq<real>, theta: real, max: nat)
    requires Within(os, ls, theta)
    ensures Within(Latest(os, max), Latest(ls, max), theta)
  {
  }

  /** Each sample is off by at most its own lag. */
  lemma {:induction false} SamplesWithin(xs: seq<Exchange>, theta: real)
    requires forall x :: x in xs ==> x.up >= 0.0 && x.down >= 0.0
    ensures Within(Offsets(Observed(xs, theta)), Lags(Observed(xs, theta)), theta)
  {
    var samples := Observed(xs, theta);
    forall i | 0 <= i < |samples| ensures Abs(Offsets(samples)[i] - theta) <= Lags(samples)[i] {
      assert xs[i] in xs;
    }
  }

  lemma {:induction false} WindowsWithin(xs: seq<Exchange>, theta: real, max: nat)
    requires max > 0 && forall x :: x in xs ==> x.up >= 0.0 && x.down >= 0.0
    ensures var c := After(Replies(xs, theta), max); Within(c.offsets, c.lags, theta)
  {
    var es := Replies(xs, theta);
    AllReplies(xs, theta);
    WindowTheorem(es, max);
    SamplesWithin(xs, theta);
    LatestWithin(Offsets(Observed(xs, theta)), Lags(Observed(xs, theta)), theta, max);
  }

  /** With a constant true offset and non-negative delays, the reported offset is wrong by at most the reported lag plus
      one millisecond of rounding. */
  lemma {:induction false} ClockTheorem(xs: seq<Exchange>, theta: real, max: nat)
    requires max > 0 && xs != [] && forall x :: x in xs ==> x.up >= 0.0 && x.down >= 0.0
    ensures var c := After(Replies(xs, theta), max);
            Abs(c.offset as real - theta) <= c.lag as real + 1.0
  {
    var es := Replies(xs, theta);
    WindowsWithin(xs, theta, max);
    WindowTheorem(es, max);
    AllReplies(xs, theta);
    assert IsSample(es[|es| - 1]);
    MeanWithin(After(es, max).offsets, After(es, max).lags, theta);
  }
}
