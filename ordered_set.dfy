/**
 * A JavaScript `Set` read back with `Array.from`: a sequence without
 * duplicates whose order is the order in which elements were first added.
 * `new Set(xs)`, `set.add(x)` and `set.delete(x)` are the three operations
 * the dashboard uses.
 */
module OrderedSet {

  /** No element occurs twice. */
  predicate NoDuplicates<T(==)>(s: seq<T>) {
    forall i, j :: 0 <= i < j < |s| ==> s[i] != s[j]
  }

  /** `set.add(x)`: a new element goes to the end, an element already there
      stays where it is. */
  function Add<T(==)>(s: seq<T>, x: T): seq<T> {
    if x in s then s else s + [x]
  }

  /** `set.delete(x)`: every occurrence of `x` is dropped. */
  function Delete<T(==)>(s: seq<T>, x: T): seq<T> {
    if |s| == 0 then []
    else (if s[0] == x then [] else [s[0]]) + Delete(s[1..], x)
  }

  /** `Array.from(new Set(xs))`: the elements of `xs` at their first occurrence. */
  function FromList<T(==)>(xs: seq<T>): seq<T> {
    if |xs| == 0 then [] else Add(FromList(xs[..|xs| - 1]), xs[|xs| - 1])
  }

  /** Adding keeps the earlier elements in place, contains exactly the old
      elements and `x`, keeps the sequence free of duplicates and is
      idempotent. */
  lemma AddSpec<T>(s: seq<T>, x: T)
    ensures x in Add(s, x)
    ensures forall y :: y in Add(s, x) <==> y in s || y == x
    ensures |Add(s, x)| >= |s| && Add(s, x)[..|s|] == s
    ensures NoDuplicates(s) ==> NoDuplicates(Add(s, x))
    ensures Add(Add(s, x), x) == Add(s, x)
  {
    assert (s + [x])[..|s|] == s;
  }

  /** Deleting drops exactly `x` and keeps every other element. */
  lemma {:induction false} DeleteMembers<T>(s: seq<T>, x: T)
    ensures forall y :: y in Delete(s, x) <==> y in s && y != x
  {
    if |s| > 0 {
      DeleteMembers(s[1..], x);
      assert s == [s[0]] + s[1..];
    }
  }

  /** Deleting an element of a duplicate-free sequence removes that one
      position: every other element keeps its relative order. */
  lemma {:induction false} DeleteAt<T>(s: seq<T>, k: nat)
    requires NoDuplicates(s) && k < |s|
    ensures Delete(s, s[k]) == s[..k] + s[k + 1..]
  {
    if k == 0 {
      DeleteAbsent(s[1..], s[0]);
      assert s[..0] + s[1..] == s[1..];
    } else {
      DeleteAt(s[1..], k - 1);
      assert s[1..][k - 1] == s[k];
      assert s[..k] == [s[0]] + s[1..][..k - 1];
      assert s[1..][k..] == s[k + 1..];
    }
  }

  /** Deleting an element that is not there changes nothing. */
  lemma {:induction false} DeleteAbsent<T>(s: seq<T>, x: T)
    requires x !in s
    ensures Delete(s, x) == s
  {
    if |s| > 0 {
      assert x !in s[1..] by {
        forall k | 0 <= k < |s[1..]| ensures s[1..][k] != x { assert s[1..][k] == s[k + 1]; }
      }
      DeleteAbsent(s[1..], x);
      assert s == [s[0]] + s[1..];
    }
  }

  /** Deleting keeps a duplicate-free sequence duplicate-free. */
  lemma DeleteNoDuplicates<T>(s: seq<T>, x: T)
    requires NoDuplicates(s)
    ensures NoDuplicates(Delete(s, x))
  {
    if x in s {
      var k :| 0 <= k < |s| && s[k] == x;
      DeleteAt(s, k);
      var r := s[..k] + s[k + 1..];
      forall i, j | 0 <= i < j < |r| ensures r[i] != r[j] {
        var i' := if i < k then i else i + 1;
        var j' := if j < k then j else j + 1;
        assert r[i] == s[i'] && r[j] == s[j'];
      }
    } else {
      DeleteAbsent(s, x);
    }
  }

  /** `new Set(xs)` holds exactly the elements of `xs`, once each. */
  lemma {:induction false} FromListSpec<T>(xs: seq<T>)
    ensures NoDuplicates(FromList(xs))
    ensures forall y :: y in FromList(xs) <==> y in xs
  {
    if |xs| > 0 {
      var init := xs[..|xs| - 1];
      FromListSpec(init);
      AddSpec(FromList(init), xs[|xs| - 1]);
      assert xs == init + [xs[|xs| - 1]];
    }
  }

  /** A sequence that already has no duplicates comes back unchanged. */
  lemma {:induction false} FromListIdentity<T>(xs: seq<T>)
    requires NoDuplicates(xs)
    ensures FromList(xs) == xs
  {
    if |xs| > 0 {
      var init := xs[..|xs| - 1];
      FromListIdentity(init);
      FromListSpec(init);
      assert xs[|xs| - 1] !in init;
      assert init + [xs[|xs| - 1]] == xs;
    }
  }
}
