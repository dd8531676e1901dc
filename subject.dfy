/**
 * The `Subject` observer list of wp-appkit/lib/apps/apps.js: an ordered list
 * of observers that can be added, removed by identity and notified in order.
 * Identity (`===`) is Dafny equality on `T`; for a class type that is
 * reference identity.
 */
module Observers {

  /** `s` with its first element equal to `x` removed; `s` itself when there is none. */
  function RemoveFirst<T(==)>(s: seq<T>, x: T): (r: seq<T>)
    ensures |r| == if x in s then |s| - 1 else |s|
  {
    if s == [] then []
    else if s[0] == x then s[1..]
    else [s[0]] + RemoveFirst(s[1..], x)
  }

  /** The position of the first element of `s` equal to `x`, or `|s|` when there is none. */
  function FirstIndex<T(==)>(s: seq<T>, x: T): (k: nat)
    ensures k <= |s|
    ensures k < |s| ==> s[k] == x
    ensures forall j :: 0 <= j < k ==> s[j] != x
  {
    if s == [] || s[0] == x then 0 else 1 + FirstIndex(s[1..], x)
  }

  /**
   * Removing at the first occurrence keeps everything before it and
   * everything after it, in order.
   */
  lemma {:induction false} RemoveFirstAt<T>(s: seq<T>, x: T, k: nat)
    requires k < |s| && s[k] == x
    requires forall j :: 0 <= j < k ==> s[j] != x
    ensures RemoveFirst(s, x) == s[..k] + s[k + 1..]
  {
    if k > 0 {
      RemoveFirstAt(s[1..], x, k - 1);
      assert s[..k] == [s[0]] + s[1..][..k - 1];
      assert s[k + 1..] == s[1..][k..];
    }
  }

  /** Without an occurrence nothing is removed. */
  lemma {:induction false} RemoveFirstAbsent<T>(s: seq<T>, x: T)
    requires x !in s
    ensures RemoveFirst(s, x) == s
  {
    if s != [] {
      RemoveFirstAbsent(s[1..], x);
      assert s == [s[0]] + s[1..];
    }
  }

  /** With an occurrence, exactly one copy of `x` leaves the list. */
  lemma RemoveFirstMultiset<T>(s: seq<T>, x: T)
    requires x in s
    ensures multiset(RemoveFirst(s, x)) == multiset(s) - multiset{x}
  {
    var k := FirstIndex(s, x);
    RemoveFirstAt(s, x, k);
    assert s == s[..k] + [x] + s[k + 1..];
  }

  /** Unobserving what was just observed, and was not observed before, restores the list. */
  lemma ObserveUnobserve<T>(s: seq<T>, x: T)
    requires x !in s
    ensures RemoveFirst(s + [x], x) == s
  {
    RemoveFirstAt(s + [x], x, |s|);
    assert (s + [x])[..|s|] == s;
  }

  /** One call `observer.update.apply(null, args)`. */
  datatype Update<T, A> = Update(observer: T, args: A)

  class Subject<T(==)> {
    var list: seq<T>

    /** `new Subject()`. */
    constructor ()
      ensures list == []
    {
      list := [];
    }

    /** `observe(obj)`: appends, duplicates included. */
    method Observe(obj: T)
      modifies this
      ensures list == old(list) + [obj]
    {
      list := list + [obj];
    }

    /** `unobserve(obj)`: removes the first entry identical to `obj`, if any. */
    method Unobserve(obj: T) returns (removed: bool)
      modifies this
      ensures removed <==> obj in old(list)
      ensures list == RemoveFirst(old(list), obj)
    {
      var i := 0;
      var len := |list|;
      while i < len
        invariant 0 <= i <= len == |list|
        invariant list == old(list)
        invariant forall j :: 0 <= j < i ==> list[j] != obj
      {
        if list[i] == obj {
          RemoveFirstAt(list, obj, i);
          list := list[..i] + list[i + 1..];
          return true;
        }
        i := i + 1;
      }
      RemoveFirstAbsent(list, obj);
      return false;
    }

    /** `notify(args...)`: calls every observer's `update` with `args`, in list order. */
    method Notify<A>(args: A) returns (calls: seq<Update<T, A>>)
      ensures |calls| == |list|
      ensures forall i :: 0 <= i < |list| ==> calls[i] == Update(list[i], args)
    {
      calls := [];
      var i := 0;
      var len := |list|;
      while i < len
        invariant 0 <= i <= len == |list|
        invariant |calls| == i
        invariant forall j :: 0 <= j < i ==> calls[j] == Update(list[j], args)
      {
        calls := calls + [Update(list[i], args)];
        i := i + 1;
      }
    }
  }
}
