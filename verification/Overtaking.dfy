/** Numbered messages in a queue discipline that may be overtaken: what a record of the overtaken ones says of the
    order. */
module Overtaking {

  predicate Sorted(t: seq<nat>) {
    forall i, j :: 0 <= i < j < |t| ==> t[i] < t[j]
  }

  predicate Below(t: seq<nat>, limit: nat) {
    forall i :: 0 <= i < |t| ==> t[i] < limit
  }

  /** Every message that is behind a later one has been overtaken, and no number occurs twice. */
  predicate Inverted(t: seq<nat>, overtaken: set<nat>) {
    forall i, j :: 0 <= i < j < |t| ==> t[i] != t[j] && (t[i] > t[j] ==> t[j] in overtaken)
  }

  predicate Passed(t: seq<nat>, j: nat)
    requires j < |t|
  {
    exists i :: 0 <= i < j && t[i] > t[j]
  }

  /** Every message that has been overtaken is behind a later one. */
  predicate Witnessed(t: seq<nat>, overtaken: set<nat>) {
    forall j :: 0 <= j < |t| && t[j] in overtaken ==> Passed(t, j)
  }

  /** The numbers below `limit` given so far, in the order they left and then those held; `overtaken` has those that a
      later one overtook. */
  predicate Told(t: seq<nat>, overtaken: set<nat>, limit: nat) {
    Below(t, limit) && (forall m :: m in overtaken ==> m < limit) && Inverted(t, overtaken) && Witnessed(t, overtaken)
  }

  lemma {:induction false} SortedIff(t: seq<nat>, overtaken: set<nat>, limit: nat)
    requires Told(t, overtaken, limit)
    ensures Sorted(t) <==> forall m :: m in overtaken ==> m !in t
  {
    if Sorted(t) {
      assert forall j :: 0 <= j < |t| ==> !Passed(t, j);
    }
    if forall m :: m in overtaken ==> m !in t {
      forall i, j | 0 <= i < j < |t| ensures t[i] < t[j] {
        assert t[j] in t && t[i] != t[j];
      }
    }
  }

  lemma {:induction false} ToldPrefix(a: seq<nat>, b: seq<nat>, overtaken: set<nat>, limit: nat)
    requires Told(a + b, overtaken, limit)
    ensures Told(a, overtaken, limit)
  {
    var t := a + b;
    assert forall i :: 0 <= i < |a| ==> a[i] == t[i];
    forall j | 0 <= j < |a| && a[j] in overtaken ensures Passed(a, j) {
      assert t[j] in overtaken && Passed(t, j);
      var i :| 0 <= i < j && t[i] > t[j];
      assert a[i] > a[j];
    }
  }

  /** A message behind all the others. */
  lemma {:induction false} ToldLast(t: seq<nat>, overtaken: set<nat>, limit: nat)
    requires Told(t, overtaken, limit)
    ensures Told(t + [limit], overtaken, limit + 1)
  {
    var u := t + [limit];
    forall j | 0 <= j < |u| && u[j] in overtaken ensures Passed(u, j) {
      assert j < |t|;
      assert Passed(t, j);
      var i :| 0 <= i < j && t[i] > t[j];
      assert u[i] > u[j];
    }
  }

  /** A message that leaves before those held in `b`. */
  lemma {:induction false} ToldFirst(a: seq<nat>, b: seq<nat>, overtaken: set<nat>, limit: nat)
    requires Told(a + b, overtaken, limit)
    ensures Told(a + [limit] + b, overtaken + (set m | m in b), limit + 1)
  {
    var more := overtaken + (set m | m in b);
    InsertBelow(a, b, limit);
    InsertInverted(a, b, overtaken, limit, more);
    forall j | 0 <= j < |a + [limit] + b| && (a + [limit] + b)[j] in more ensures Passed(a + [limit] + b, j) {
      InsertWitnessed(a, b, overtaken, limit, more, j);
    }
  }

  lemma {:induction false} InsertBelow(a: seq<nat>, b: seq<nat>, limit: nat)
    requires Below(a + b, limit)
    ensures Below(a + [limit] + b, limit + 1) && limit !in b && forall m :: m in b ==> m < limit
  {
    assert forall i :: 0 <= i < |a| ==> a[i] == (a + b)[i];
    assert forall i :: 0 <= i < |b| ==> b[i] == (a + b)[|a| + i];
  }

  lemma {:induction false} InsertInverted(a: seq<nat>, b: seq<nat>, overtaken: set<nat>, limit: nat, more: set<nat>)
    requires Below(a + b, limit) && Inverted(a + b, overtaken) && more == overtaken + (set m | m in b)
    ensures Inverted(a + [limit] + b, more)
  {
    var t, u := a + b, a + [limit] + b;
    forall i, j | 0 <= i < j < |u| ensures u[i] != u[j] && (u[i] > u[j] ==> u[j] in more) {
      if i == |a| {
        assert u[j] == b[j - |a| - 1] == t[j - 1];
      } else if j == |a| {
        assert u[i] == t[i];
      } else {
        assert u[i] == t[if i < |a| then i else i - 1] && u[j] == t[if j < |a| then j else j - 1];
      }
    }
  }

  lemma {:induction false} InsertWitnessed(a: seq<nat>, b: seq<nat>, overtaken: set<nat>, limit: nat, more: set<nat>,
                                           j: nat)
    requires Told(a + b, overtaken, limit) && more == overtaken + (set m | m in b)
    requires j < |a + [limit] + b| && (a + [limit] + b)[j] in more
    ensures Passed(a + [limit] + b, j)
  {
    var t, u := a + b, a + [limit] + b;
    InsertBelow(a, b, limit);
    assert j != |a|;
    if j > |a| {
      assert u[j] == b[j - |a| - 1] && u[|a|] > u[j];
    } else {
      assert u[j] == t[j];
      forall k | 0 <= k < |b| ensures b[k] != t[j] { assert b[k] == t[|a| + k]; }
      assert Passed(t, j);
      var i :| 0 <= i < j && t[i] > t[j];
      assert u[i] == t[i];
    }
  }
}
