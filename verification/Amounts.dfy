/** Sums and orderings of lists of amounts. */
module Amounts {
  function Sum(s: seq<nat>): nat {
    if s == [] then 0 else s[0] + Sum(s[1..])
  }

  lemma {:induction false} SumAppend(a: seq<nat>, b: seq<nat>)
    ensures Sum(a + b) == Sum(a) + Sum(b)
  {
    if a == [] {
      assert a + b == b;
    } else {
      assert (a + b)[1..] == a[1..] + b;
      SumAppend(a[1..], b);
    }
  }

  function RemoveAt<T>(s: seq<T>, i: nat): seq<T>
    requires i < |s|
  {
    s[..i] + s[i + 1..]
  }

  lemma MinusAdd<T>(all: multiset<T>, rest: multiset<T>, x: T)
    requires all == rest + multiset{x}
    ensures all - multiset{x} == rest
  {
  }

  lemma CancelOne<T>(a: multiset<T>, b: multiset<T>, x: T)
    requires a + multiset{x} <= b + multiset{x}
    ensures a <= b
  {
    forall y ensures a[y] <= b[y] {
      assert (a + multiset{x})[y] <= (b + multiset{x})[y];
    }
  }

  lemma WithoutOne<T>(a: multiset<T>, all: multiset<T>, x: T)
    requires a + multiset{x} <= all
    ensures a <= all - multiset{x}
  {
    forall y ensures a[y] <= (all - multiset{x})[y] {
      assert (a + multiset{x})[y] <= all[y];
    }
  }

  lemma BothWithin<T>(a: multiset<T>, b: multiset<T>, c: multiset<T>, d: multiset<T>)
    requires a <= b && c <= d
    ensures a + c <= b + d
  {
    forall y ensures (a + c)[y] <= (b + d)[y] {
      assert a[y] <= b[y] && c[y] <= d[y];
    }
  }

  lemma ConcatLeft<T>(head: seq<T>, tail: seq<T>, a: seq<T>, b: seq<T>)
    requires multiset(tail) == multiset(a) + multiset(b)
    ensures multiset(head + tail) == multiset(head + a) + multiset(b)
  {
    assert multiset(head + tail) == multiset(head) + (multiset(a) + multiset(b));
    assert multiset(head + a) == multiset(head) + multiset(a);
  }

  lemma ConcatRight<T>(head: seq<T>, tail: seq<T>, a: seq<T>, b: seq<T>)
    requires multiset(tail) == multiset(a) + multiset(b)
    ensures multiset(head + tail) == multiset(a) + multiset(head + b)
  {
    assert multiset(head + tail) == multiset(head) + (multiset(a) + multiset(b));
    assert multiset(head + b) == multiset(head) + multiset(b);
  }

  lemma ConcatSwap<T>(head: seq<T>, x: seq<T>, tail: seq<T>, rest: seq<T>)
    requires multiset(rest) == multiset(x + tail)
    ensures multiset(head + rest) == multiset(x + (head + tail))
  {
    assert multiset(head + rest) == multiset(head) + (multiset(x) + multiset(tail));
    assert multiset(x + (head + tail)) == multiset(x) + (multiset(head) + multiset(tail));
  }

  lemma RemoveAtMultiset<T>(s: seq<T>, i: nat)
    requires i < |s|
    ensures multiset(s) == multiset(RemoveAt(s, i)) + multiset{s[i]}
  {
    assert s == s[..i] + [s[i]] + s[i + 1..];
  }

  /** A bag that lacks the head is inside the rest. */
  lemma SkipHead<T>(s: seq<T>, wanted: seq<T>)
    requires s != [] && s[0] !in wanted && multiset(wanted) <= multiset(s)
    ensures multiset(wanted) <= multiset(s[1..])
  {
    RemoveAtMultiset(s, 0);
    assert RemoveAt(s, 0) == s[1..];
    assert s[0] !in multiset(wanted);
  }

  /** Find the head of `a` in a bag that contains it, and drop both. */
  lemma DropHead<T>(a: seq<T>, b: seq<T>) returns (i: nat)
    requires a != [] && multiset(a) <= multiset(b)
    ensures i < |b| && b[i] == a[0]
    ensures multiset(a[1..]) <= multiset(RemoveAt(b, i))
    ensures multiset(a) == multiset(b) ==> multiset(a[1..]) == multiset(RemoveAt(b, i))
  {
    RemoveAtMultiset(a, 0);
    assert RemoveAt(a, 0) == a[1..];
    assert a[0] in multiset(b);
    i :| 0 <= i < |b| && b[i] == a[0];
    RemoveAtMultiset(b, i);
    assert multiset(a[1..]) == multiset(a) - multiset{a[0]};
    assert multiset(RemoveAt(b, i)) == multiset(b) - multiset{a[0]};
  }

  lemma {:induction false} SumRemoveAt(s: seq<nat>, i: nat)
    requires i < |s|
    ensures Sum(s) == Sum(RemoveAt(s, i)) + s[i]
  {
    if i == 0 {
      assert RemoveAt(s, 0) == s[1..];
    } else {
      SumRemoveAt(s[1..], i - 1);
      assert RemoveAt(s, i)[1..] == RemoveAt(s[1..], i - 1);
    }
  }

  predicate Descending(s: seq<nat>) {
    forall i, j :: 0 <= i < j < |s| ==> s[i] >= s[j]
  }

  lemma DescendingHead(a: seq<nat>, b: seq<nat>)
    requires Descending(a) && multiset(b) <= multiset(a) && b != []
    ensures a != [] && b[0] <= a[0]
  {
    assert b[0] in multiset(a);
  }

  lemma SameTails(a: seq<nat>, b: seq<nat>)
    requires a != [] && b != [] && a[0] == b[0] && multiset(a) == multiset(b)
    ensures multiset(a[1..]) == multiset(b[1..])
  {
    RemoveAtMultiset(a, 0);
    RemoveAtMultiset(b, 0);
    assert RemoveAt(a, 0) == a[1..] && RemoveAt(b, 0) == b[1..];
    assert multiset(a[1..]) == multiset(a) - multiset{a[0]};
    assert multiset(b[1..]) == multiset(b) - multiset{b[0]};
  }

  /** A bag has only one descending listing. */
  lemma {:induction false} DescendingUnique(a: seq<nat>, b: seq<nat>)
    requires Descending(a) && Descending(b) && multiset(a) == multiset(b)
    ensures a == b
    decreases |a|
  {
    assert |a| == |multiset(a)| == |b|;
    if a != [] {
      DescendingHead(a, b);
      DescendingHead(b, a);
      SameTails(a, b);
      DescendingUnique(a[1..], b[1..]);
      assert a == [a[0]] + a[1..];
      assert b == [b[0]] + b[1..];
    }
  }
}
