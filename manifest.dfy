/**
 * The block manifest as the plugin sees it once the YAML layer is stripped:
 * an ordered list of block class names, and the two list transforms that
 * registering and unregistering a block perform on it.
 */
module Manifest {
  import opened Wrappers

  /** The invariant the plugin keeps: no class name is listed twice. */
  ghost predicate NoDuplicates(l: seq<string>) {
    forall i, j :: 0 <= i < j < |l| ==> l[i] != l[j]
  }

  /**
   * The index of the first entry equal to c, or None when c is not listed
   * (PHP's array_search on a list, with exact string comparison).
   */
  function FirstIndex(l: seq<string>, c: string): (r: Option<nat>)
    ensures r.None? <==> c !in l
    ensures r.Some? ==> r.value < |l| && l[r.value] == c
    ensures r.Some? ==> forall j :: 0 <= j < r.value ==> l[j] != c
    decreases |l|
  {
    if |l| == 0 then None
    else if l[0] == c then Some(0)
    else
      match FirstIndex(l[1..], c)
      case None => None
      case Some(i) => Some(i + 1)
  }

  /**
   * Registering c: None when c is already listed (nothing is written),
   * otherwise the list to write back, with c appended at the end.
   */
  function Register(l: seq<string>, c: string): (r: Option<seq<string>>)
    ensures r.None? <==> c in l
    ensures r.Some? ==> |r.value| == |l| + 1 && r.value[..|l|] == l && r.value[|l|] == c
  {
    if c in l then None else Some(l + [c])
  }

  /** r is l with its first occurrence of c deleted and every other entry kept in order. */
  ghost predicate DeletesFirst(l: seq<string>, c: string, r: seq<string>) {
    exists i :: 0 <= i < |l| && l[i] == c && c !in l[..i] && r == l[..i] + l[i + 1..]
  }

  /**
   * Unregistering c: None when c is not listed (nothing is written),
   * otherwise the list to write back, with the first occurrence of c deleted.
   */
  function Unregister(l: seq<string>, c: string): (r: Option<seq<string>>)
    ensures r.None? <==> c !in l
    ensures r.Some? ==> DeletesFirst(l, c, r.value)
    ensures r.Some? ==> |r.value| == |l| - 1 && multiset(r.value) == multiset(l) - multiset{c}
  {
    match FirstIndex(l, c)
    case None => None
    case Some(i) =>
      assert l == l[..i] + [c] + l[i + 1..];
      Some(l[..i] + l[i + 1..])
  }

  /** A change to the manifest: registering or unregistering one class. */
  datatype Change = Add(entry: string) | Remove(entry: string)

  /** The list to write back for a change, or None when the change is a no-op. */
  function Edit(l: seq<string>, ch: Change): Option<seq<string>> {
    match ch
    case Add(c) => Register(l, c)
    case Remove(c) => Unregister(l, c)
  }

  /** The manifest after a change, whether or not anything was written. */
  function Applied(l: seq<string>, ch: Change): seq<string> {
    Edit(l, ch).GetOr(l)
  }

  /** The manifest after a series of changes, applied in order. */
  function AppliedAll(l: seq<string>, chs: seq<Change>): seq<string>
    decreases |chs|
  {
    if chs == [] then l else AppliedAll(Applied(l, chs[0]), chs[1..])
  }

  /** Registering keeps every class listed at most once. */
  lemma RegisterKeepsNoDuplicates(l: seq<string>, c: string)
    requires NoDuplicates(l)
    ensures NoDuplicates(Applied(l, Add(c)))
  {
  }

  /** Unregistering keeps every class listed at most once. */
  lemma UnregisterKeepsNoDuplicates(l: seq<string>, c: string)
    requires NoDuplicates(l)
    ensures NoDuplicates(Applied(l, Remove(c)))
  {
  }

  /** Every change keeps every class listed at most once. */
  lemma AppliedKeepsNoDuplicates(l: seq<string>, ch: Change)
    requires NoDuplicates(l)
    ensures NoDuplicates(Applied(l, ch))
  {
    match ch
    case Add(c) => RegisterKeepsNoDuplicates(l, c);
    case Remove(c) => UnregisterKeepsNoDuplicates(l, c);
  }

  /** After any series of registrations and unregistrations, no class is listed twice. */
  lemma {:induction false} AppliedAllKeepsNoDuplicates(l: seq<string>, chs: seq<Change>)
    requires NoDuplicates(l)
    ensures NoDuplicates(AppliedAll(l, chs))
    decreases |chs|
  {
    if chs != [] {
      AppliedKeepsNoDuplicates(l, chs[0]);
      AppliedAllKeepsNoDuplicates(Applied(l, chs[0]), chs[1..]);
    }
  }

  /**
   * Registering is idempotent: a second registration of the same class
   * writes nothing, and under the invariant the class is listed exactly once.
   */
  lemma RegisterIdempotent(l: seq<string>, c: string)
    ensures Register(Applied(l, Add(c)), c).None?
    ensures Applied(Applied(l, Add(c)), Add(c)) == Applied(l, Add(c))
    ensures NoDuplicates(l) ==> multiset(Applied(Applied(l, Add(c)), Add(c)))[c] == 1
  {
    if NoDuplicates(l) {
      var r := Applied(l, Add(c));
      RegisterKeepsNoDuplicates(l, c);
      OccursOnce(r, c);
    }
  }

  /** Under the invariant, a listed class occurs exactly once. */
  lemma {:induction false} OccursOnce(l: seq<string>, c: string)
    requires NoDuplicates(l) && c in l
    ensures multiset(l)[c] == 1
    decreases |l|
  {
    assert l == [l[0]] + l[1..];
    assert NoDuplicates(l[1..]) by {
      forall i, j | 0 <= i < j < |l[1..]| ensures l[1..][i] != l[1..][j] {
        assert l[1..][i] == l[i + 1] && l[1..][j] == l[j + 1];
      }
    }
    if l[0] == c {
      assert c !in l[1..] by {
        forall j | 0 <= j < |l[1..]| ensures l[1..][j] != c {
          assert l[1..][j] == l[j + 1];
        }
      }
    } else {
      OccursOnce(l[1..], c);
    }
  }

  /**
   * Registering a class that is not listed and then unregistering it
   * restores the manifest exactly.
   */
  lemma RegisterThenUnregister(l: seq<string>, c: string)
    requires c !in l
    ensures Applied(Applied(l, Add(c)), Remove(c)) == l
  {
  }

  /** Unregistering a class that is not listed writes nothing and leaves the manifest as it was. */
  lemma UnregisterAbsent(l: seq<string>, c: string)
    requires c !in l
    ensures Edit(l, Remove(c)).None? && Applied(l, Remove(c)) == l
  {
  }

  /** Under the invariant, unregistering leaves no occurrence of the class behind. */
  lemma UnregisterRemovesAll(l: seq<string>, c: string)
    requires NoDuplicates(l)
    ensures c !in Applied(l, Remove(c))
    ensures c in l ==> multiset(Applied(l, Remove(c))) == multiset(l) - multiset{c}
  {
  }

  /**
   * Without the invariant, unregistering deletes only the first occurrence:
   * a class listed twice stays listed once.
   */
  lemma UnregisterDuplicateKeepsOne()
    ensures Applied(["A", "A"], Remove("A")) == ["A"]
  {
  }

  /** Deleting from the middle keeps the survivors in their relative order. */
  lemma UnregisterKeepsOrder()
    ensures Applied(["A", "B", "C"], Remove("B")) == ["A", "C"]
  {
  }

  /** Applying a non-empty series is applying its first change, then the rest. */
  lemma AppliedAllCons(l: seq<string>, ch: Change, chs: seq<Change>)
    ensures AppliedAll(l, [ch] + chs) == AppliedAll(Applied(l, ch), chs)
  {
  }

  /**
   * Registering A, B and C into an empty manifest and then unregistering B
   * leaves A and C, in that order.
   */
  lemma RegisterThreeUnregisterMiddle()
    ensures AppliedAll([], [Add("A"), Add("B"), Add("C"), Remove("B")]) == ["A", "C"]
  {
  }
}
