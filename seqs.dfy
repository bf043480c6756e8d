/**
 * Filtering an enumeration: the shape every scan-and-select backend shares.
 * A backend walks a device list in order, counts the entries a vendor test
 * accepts, and picks the index-th accepted one.
 */
module Seqs {
  import opened Wrappers

  /** The elements of `s` that `p` accepts, in their order in `s`. */
  function Filter<T>(p: T -> bool, s: seq<T>): (r: seq<T>)
    ensures |r| <= |s|
    ensures forall k :: 0 <= k < |r| ==> p(r[k])
    ensures forall x :: x in r ==> x in s
  {
    if s == [] then []
    else Filter(p, s[..|s| - 1]) + (if p(s[|s| - 1]) then [s[|s| - 1]] else [])
  }

  /** Filtering a prefix of `s` gives a prefix of what filtering `s` gives. */
  lemma {:induction false} FilterPrefix<T>(p: T -> bool, s: seq<T>, j: nat)
    requires j <= |s|
    ensures Filter(p, s[..j]) <= Filter(p, s)
    decreases |s| - j
  {
    if j < |s| {
      FilterPrefix(p, s, j + 1);
      assert s[..j + 1][..j] == s[..j];
    } else {
      assert s[..j] == s;
    }
  }

  /** One more element scanned adds it to the filtered list exactly when `p` accepts it. */
  lemma FilterStep<T>(p: T -> bool, s: seq<T>, i: nat)
    requires i < |s|
    ensures Filter(p, s[..i + 1]) == Filter(p, s[..i]) + (if p(s[i]) then [s[i]] else [])
  {
    assert s[..i + 1][..i] == s[..i];
  }

  /**
   * The index-th accepted element is found at a position `i` exactly when
   * `p` accepts `s[i]` and index elements before it were accepted.
   */
  lemma SelectAt<T>(p: T -> bool, s: seq<T>, i: nat, index: nat)
    requires i < |s| && p(s[i]) && |Filter(p, s[..i])| == index
    ensures index < |Filter(p, s)| && Filter(p, s)[index] == s[i]
  {
    FilterStep(p, s, i);
    FilterPrefix(p, s, i + 1);
  }

  /**
   * The position of the first element `f` gives a value for: the shape of a
   * loop that scans lines or probes paths and stops at its first hit.
   */
  function FirstSome<T, U>(s: seq<T>, f: T -> Option<U>): (r: Option<nat>)
    ensures r.Some? ==> r.value < |s| && f(s[r.value]).Some? && forall j :: 0 <= j < r.value ==> f(s[j]).None?
    ensures r.None? ==> forall j :: 0 <= j < |s| ==> f(s[j]).None?
  {
    if s == [] then None
    else if f(s[0]).Some? then Some(0)
    else
      match FirstSome(s[1..], f)
      case None => None
      case Some(k) => Some(k + 1)
  }

  /** The value `f` gives for the first element it gives one for; None when it gives none. */
  function FirstValue<T, U>(s: seq<T>, f: T -> Option<U>): (r: Option<U>)
    ensures forall k :: 0 <= k < |s| && f(s[k]).Some? && (forall j :: 0 <= j < k ==> f(s[j]).None?) ==> r == f(s[k])
    ensures (forall k :: 0 <= k < |s| ==> f(s[k]).None?) ==> r.None?
  {
    match FirstSome(s, f)
    case None => None
    case Some(k) => f(s[k])
  }

  /** Scan `s` in order and stop at the first element `f` gives a value for. */
  method FindFirst<T, U>(s: seq<T>, f: T -> Option<U>) returns (r: Option<U>)
    ensures r == FirstValue(s, f)
    ensures r.Some? <==> exists j :: 0 <= j < |s| && f(s[j]).Some?
  {
    var i := 0;
    while i < |s|
      invariant 0 <= i <= |s|
      invariant forall j :: 0 <= j < i ==> f(s[j]).None?
    {
      var v := f(s[i]);
      if v.Some? {
        return v;
      }
      i := i + 1;
    }
    return None;
  }
}
