/**
  Channels and their globbing: which registered patterns `_notifyListeners` of media/js/cometd.js looks up for a
  channel, against what section 2.2.1 (Channel Globbing) of the Bayeux Protocol 1.0 says a pattern matches.
 */
module Channels {

  /** `s.split("/")`. */
  function Split(s: string): (parts: seq<string>)
    ensures |parts| >= 1
    ensures forall i :: 0 <= i < |parts| ==> '/' !in parts[i]
  {
    if s == "" then [""]
    else
      var rest := Split(s[1..]);
      if s[0] == '/' then [""] + rest else [[s[0]] + rest[0]] + rest[1..]
  }

  /** `parts.join("/")`. */
  function Join(parts: seq<string>): string {
    if |parts| == 0 then "" else if |parts| == 1 then parts[0] else parts[0] + "/" + Join(parts[1..])
  }

  lemma {:induction false} JoinSplit(s: string)
    ensures Join(Split(s)) == s
  {
    if s != "" {
      JoinSplit(s[1..]);
      var rest := Split(s[1..]);
      if s[0] == '/' {
        assert Split(s)[1..] == rest;
      } else {
        assert Split(s)[0] == [s[0]] + rest[0] && Split(s)[1..] == rest[1..];
        assert s == [s[0]] + s[1..];
      }
    }
  }

  lemma {:induction false} SplitPlain(p: string, rest: string)
    requires '/' !in p
    ensures Split(p + "/" + rest) == [p] + Split(rest)
    ensures Split(p) == [p]
  {
    if p == "" {
      assert (p + "/" + rest)[1..] == rest;
    } else {
      assert (p + "/" + rest)[1..] == p[1..] + "/" + rest;
      SplitPlain(p[1..], rest);
      assert p == [p[0]] + p[1..];
    }
  }

  lemma {:induction false} SplitJoin(parts: seq<string>)
    requires |parts| >= 1 && forall i :: 0 <= i < |parts| ==> '/' !in parts[i]
    ensures Split(Join(parts)) == parts
  {
    if |parts| == 1 {
      SplitPlain(parts[0], "");
    } else {
      SplitJoin(parts[1..]);
      SplitPlain(parts[0], Join(parts[1..]));
    }
  }

  /** The patterns looked up for the prefixes of `parts` up to length `i`, longest first. */
  function Globs(parts: seq<string>, i: nat): seq<string>
    requires i < |parts|
  {
    if i == 0 then []
    else
      var prefix := Join(parts[..i]) + "/*";
      (if i == |parts| - 1 then [prefix] else []) + [prefix + "*"] + Globs(parts, i - 1)
  }

  /** Everything `_notifyListeners` looks up, in order. */
  function LookedUp(channel: string): seq<string> {
    [channel] + Globs(Split(channel), |Split(channel)| - 1)
  }

  /** Section 2.2.1: only the last segment of a pattern may be a wildcard; "*" stands for exactly one segment and
      "**" for one or more. */
  predicate Matches(pattern: string, channel: string) {
    var p, c := Split(pattern), Split(channel);
    var last := p[|p| - 1];
    |p| >= 2 && |p| <= |c| && p[..|p| - 1] == c[..|p| - 1] && (last == "**" || (last == "*" && |p| == |c|))
  }

  function Times(s: seq<string>, x: string): nat {
    if s == [] then 0 else (if s[0] == x then 1 else 0) + Times(s[1..], x)
  }

  lemma {:induction false} TimesConcat(a: seq<string>, b: seq<string>, x: string)
    ensures Times(a + b, x) == Times(a, x) + Times(b, x)
  {
    if a == [] {
      assert a + b == b;
    } else {
      assert (a + b)[1..] == a[1..] + b;
      TimesConcat(a[1..], b, x);
    }
  }

  /** Gluing a wildcard segment onto a prefix, as strings and as segments. */
  lemma {:induction false} JoinWildcard(prefix: seq<string>, wildcard: string)
    requires |prefix| >= 1
    ensures Join(prefix + [wildcard]) == Join(prefix) + "/" + wildcard
  {
    if |prefix| == 1 {
      assert (prefix + [wildcard])[1..] == [wildcard];
    } else {
      assert (prefix + [wildcard])[1..] == prefix[1..] + [wildcard];
      JoinWildcard(prefix[1..], wildcard);
    }
  }

  lemma {:induction false} GlobIs(parts: seq<string>, i: nat, wildcard: string, pattern: string)
    requires 1 <= i <= |parts| && forall j :: 0 <= j < |parts| ==> '/' !in parts[j]
    requires wildcard == "*" || wildcard == "**"
    ensures Join(parts[..i]) + "/" + wildcard == pattern <==> Split(pattern) == parts[..i] + [wildcard]
  {
    JoinWildcard(parts[..i], wildcard);
    SplitJoin(parts[..i] + [wildcard]);
    JoinSplit(pattern);
  }

  predicate IsGlob(parts: seq<string>, i: nat, wildcard: string, pattern: string)
    requires i <= |parts|
  {
    Split(pattern) == parts[..i] + [wildcard]
  }

  /** A pattern is one of the recursive globs up to length `i` when its own prefix is a prefix of the channel. */
  predicate IsRecursiveGlob(parts: seq<string>, i: nat, pattern: string)
    requires i <= |parts|
  {
    var p := Split(pattern);
    2 <= |p| <= i + 1 && p[|p| - 1] == "**" && p[..|p| - 1] == parts[..|p| - 1]
  }

  lemma {:induction false} GlobTimes(parts: seq<string>, i: nat, pattern: string)
    requires i < |parts| && forall j :: 0 <= j < |parts| ==> '/' !in parts[j]
    ensures Times(Globs(parts, i), pattern) ==
            (if IsRecursiveGlob(parts, i, pattern) then 1 else 0) +
            (if i > 0 && i == |parts| - 1 && IsGlob(parts, i, "*", pattern) then 1 else 0)
  {
    if i > 0 {
      GlobTimes(parts, i - 1, pattern);
      GlobIs(parts, i, "*", pattern);
      GlobIs(parts, i, "**", pattern);
      var prefix := Join(parts[..i]) + "/*";
      assert Join(parts[..i]) + "/" + "*" == prefix;
      assert Join(parts[..i]) + "/" + "**" == prefix + "*";
      var one, two := if i == |parts| - 1 then [prefix] else [], [prefix + "*"];
      TimesConcat(one + two, Globs(parts, i - 1), pattern);
      TimesConcat(one, two, pattern);
      var p := Split(pattern);
      if |p| == i + 1 {
        assert p == p[..i] + [p[i]];
      }
      assert IsRecursiveGlob(parts, i, pattern) <==>
             IsRecursiveGlob(parts, i - 1, pattern) || IsGlob(parts, i, "**", pattern);
    }
  }

  /** For every channel and every pattern: the pattern is looked up once for being the channel itself and once for
      matching it, and never otherwise. */
  lemma {:induction false} GlobbingTheorem(channel: string, pattern: string)
    ensures Times(LookedUp(channel), pattern) ==
            (if pattern == channel then 1 else 0) + (if Matches(pattern, channel) then 1 else 0)
  {
    var parts, p := Split(channel), Split(pattern);
    GlobTimes(parts, |parts| - 1, pattern);
    TimesConcat([channel], Globs(parts, |parts| - 1), pattern);
    if |p| == |parts| {
      assert p == p[..|p| - 1] + [p[|p| - 1]];
      assert parts[..|parts| - 1] == parts[..|p| - 1];
    }
  }

  predicate EndsInWildcard(channel: string) {
    var c := Split(channel);
    c[|c| - 1] == "*" || c[|c| - 1] == "**"
  }

  /** So no listener is notified twice exactly when the channel's own last segment is not a wildcard. */
  lemma {:induction false} NotifiedOnceIff(channel: string)
    requires channel != "" && channel[0] == '/'
    ensures (forall pattern :: Times(LookedUp(channel), pattern) <= 1) <==> !EndsInWildcard(channel)
  {
    var c := Split(channel);
    assert c == [""] + Split(channel[1..]);
    forall pattern ensures Times(LookedUp(channel), pattern) ==
            (if pattern == channel then 1 else 0) + (if Matches(pattern, channel) then 1 else 0)
    {
      GlobbingTheorem(channel, pattern);
    }
    assert Matches(channel, channel) <==> EndsInWildcard(channel);
    assert Times(LookedUp(channel), channel) == 1 + if Matches(channel, channel) then 1 else 0;
  }
}
