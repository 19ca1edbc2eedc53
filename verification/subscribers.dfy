/**
 * Subscriber lists of one event: the stable descending-priority order used
 * for dispatch, and the removal filter used by unsubscription.
 */
module Subscribers {

  /** Opaque identity of a subscriber callback; two callbacks are the same iff their ids are equal. */
  type CallbackId = nat

  /** One registration: the callback and the priority it was registered with (default 0). */
  datatype Subscriber = Subscriber(callback: CallbackId, priority: int)

  /** No subscriber is placed after one of strictly lower priority. */
  predicate SortedByPriority(s: seq<Subscriber>) {
    forall i, j :: 0 <= i < j < |s| ==> s[i].priority >= s[j].priority
  }

  /** The subscribers of `s` that have priority `p`, in their order in `s`. */
  function WithPriority(s: seq<Subscriber>, p: int): seq<Subscriber> {
    if |s| == 0 then []
    else (if s[0].priority == p then [s[0]] else []) + WithPriority(s[1..], p)
  }

  /**
   * `sorted` is a stable sort of `s` by descending priority: it is ordered by
   * priority and, for every priority, lists the subscribers of that priority in
   * exactly the order they have in `s`.
   */
  ghost predicate IsStableSortOf(sorted: seq<Subscriber>, s: seq<Subscriber>) {
    && SortedByPriority(sorted)
    && forall p :: WithPriority(sorted, p) == WithPriority(s, p)
  }

  /** The callbacks of `s`, in order. */
  function Callbacks(s: seq<Subscriber>): seq<CallbackId>
  {
    seq(|s|, i requires 0 <= i < |s| => s[i].callback)
  }

  lemma {:induction false} WithPriorityAppend(a: seq<Subscriber>, b: seq<Subscriber>, p: int)
    ensures WithPriority(a + b, p) == WithPriority(a, p) + WithPriority(b, p)
    decreases |a|
  {
    if |a| == 0 {
      assert a + b == b;
    } else {
      assert (a + b)[0] == a[0];
      assert (a + b)[1..] == a[1..] + b;
      WithPriorityAppend(a[1..], b, p);
    }
  }

  lemma {:induction false} WithPriorityMember(s: seq<Subscriber>, p: int, e: Subscriber)
    requires e in WithPriority(s, p)
    ensures e in s && e.priority == p
    decreases |s|
  {
    assert |s| > 0;
    var head := if s[0].priority == p then [s[0]] else [];
    assert WithPriority(s, p) == head + WithPriority(s[1..], p);
    if e in head {
      assert e == s[0];
    } else {
      WithPriorityMember(s[1..], p, e);
    }
  }

  lemma SortedCons(a: Subscriber, t: seq<Subscriber>)
    requires SortedByPriority(t)
    requires forall e :: e in t ==> a.priority >= e.priority
    ensures SortedByPriority([a] + t)
  {
  }

  /** Inserts `x` in front of the first subscriber of priority at most its own. */
  function Insert(x: Subscriber, s: seq<Subscriber>): seq<Subscriber>
    decreases |s|
  {
    if |s| == 0 || x.priority >= s[0].priority then [x] + s
    else [s[0]] + Insert(x, s[1..])
  }

  /**
   * Inserting into a priority-ordered list keeps it ordered, adds exactly `x`,
   * and puts `x` ahead of the subscribers of its own priority.
   */
  lemma {:induction false} InsertIsStable(x: Subscriber, s: seq<Subscriber>)
    requires SortedByPriority(s)
    ensures SortedByPriority(Insert(x, s))
    ensures multiset(Insert(x, s)) == multiset([x] + s)
    ensures forall p :: WithPriority(Insert(x, s), p) == WithPriority([x] + s, p)
    decreases |s|
  {
    if |s| > 0 && x.priority < s[0].priority {
      InsertIsStable(x, s[1..]);
      InsertBelowHead(x, s, Insert(x, s[1..]));
    }
  }

  /** The proof step of `Insert` when `x` goes after the head of `s`. */
  lemma InsertBelowHead(x: Subscriber, s: seq<Subscriber>, rest: seq<Subscriber>)
    requires SortedByPriority(s) && |s| > 0 && x.priority < s[0].priority
    requires SortedByPriority(rest)
    requires multiset(rest) == multiset([x] + s[1..])
    requires forall p :: WithPriority(rest, p) == WithPriority([x] + s[1..], p)
    ensures SortedByPriority([s[0]] + rest)
    ensures multiset([s[0]] + rest) == multiset([x] + s)
    ensures forall p :: WithPriority([s[0]] + rest, p) == WithPriority([x] + s, p)
  {
    RestBelowHead(x, s, rest);
    SortedCons(s[0], rest);
    assert multiset([s[0]] + rest) == multiset([x] + s) by {
      assert s == [s[0]] + s[1..];
      calc {
        multiset([s[0]] + rest);
        multiset([s[0]]) + multiset(rest);
        multiset([s[0]]) + multiset([x] + s[1..]);
        multiset([x]) + (multiset([s[0]]) + multiset(s[1..]));
        multiset([x]) + multiset(s);
      }
    }
    forall p ensures WithPriority([s[0]] + rest, p) == WithPriority([x] + s, p) {
      SwapDistinctPriorities(x, s, rest, p);
    }
  }

  lemma RestBelowHead(x: Subscriber, s: seq<Subscriber>, rest: seq<Subscriber>)
    requires SortedByPriority(s) && |s| > 0 && x.priority < s[0].priority
    requires multiset(rest) == multiset([x] + s[1..])
    ensures forall e :: e in rest ==> s[0].priority >= e.priority
  {
    forall e | e in rest ensures s[0].priority >= e.priority {
      assert e in multiset([x] + s[1..]);
      if e != x {
        assert e in s[1..];
        var k :| 0 <= k < |s[1..]| && s[1..][k] == e;
        assert s[k + 1] == e;
      }
    }
  }

  lemma SwapDistinctPriorities(x: Subscriber, s: seq<Subscriber>, rest: seq<Subscriber>, p: int)
    requires |s| > 0 && x.priority != s[0].priority
    requires WithPriority(rest, p) == WithPriority([x] + s[1..], p)
    ensures WithPriority([s[0]] + rest, p) == WithPriority([x] + s, p)
  {
  }

  /**
   * The dispatch order of one emission: an insertion sort by descending
   * priority, each earlier registration inserted ahead of later ones of
   * the same priority.
   */
  function SortByPriority(s: seq<Subscriber>): seq<Subscriber>
    decreases |s|
  {
    if |s| == 0 then [] else Insert(s[0], SortByPriority(s[1..]))
  }

  /** The dispatch order is a stable sort by descending priority and a permutation of the list. */
  lemma {:induction false} SortByPriorityIsStableSort(s: seq<Subscriber>)
    ensures IsStableSortOf(SortByPriority(s), s)
    ensures multiset(SortByPriority(s)) == multiset(s)
    decreases |s|
  {
    if |s| > 0 {
      var rest := SortByPriority(s[1..]);
      SortByPriorityIsStableSort(s[1..]);
      InsertIsStable(s[0], rest);
      assert s == [s[0]] + s[1..];
      forall p ensures WithPriority(SortByPriority(s), p) == WithPriority(s, p) {
        WithPriorityAppend([s[0]], rest, p);
        WithPriorityAppend([s[0]], s[1..], p);
      }
    }
  }

  /** A non-empty list has a non-empty priority group: the one of its head. */
  lemma HeadGroupNonEmpty(s: seq<Subscriber>)
    ensures |s| > 0 ==> WithPriority(s, s[0].priority) == [s[0]] + WithPriority(s[1..], s[0].priority)
  {
  }

  /**
   * Two priority-ordered lists with the same priority groups are equal, so a
   * stable sort is determined by its input.
   */
  lemma {:induction false} SameGroupsSameList(a: seq<Subscriber>, b: seq<Subscriber>)
    requires SortedByPriority(a) && SortedByPriority(b)
    requires forall p :: WithPriority(a, p) == WithPriority(b, p)
    ensures a == b
    decreases |a| + |b|
  {
    HeadGroupNonEmpty(a);
    HeadGroupNonEmpty(b);
    if |a| > 0 && |b| > 0 {
      var pa := a[0].priority;
      var pb := b[0].priority;
      assert a[0] in WithPriority(b, pa);
      WithPriorityMember(b, pa, a[0]);
      assert b[0] in WithPriority(a, pb);
      WithPriorityMember(a, pb, b[0]);
      var i :| 0 <= i < |b| && b[i] == a[0];
      var j :| 0 <= j < |a| && a[j] == b[0];
      assert pb >= b[i].priority && pa >= a[j].priority;
      assert pa == pb;
      var ga := WithPriority(a, pa);
      assert ga == WithPriority(b, pa);
      assert ga[0] == a[0] && ga[0] == b[0];
      forall q ensures WithPriority(a[1..], q) == WithPriority(b[1..], q) {
        if q == pa {
          assert WithPriority(a[1..], q) == ga[1..] == WithPriority(b[1..], q);
        } else {
          assert WithPriority(a[1..], q) == WithPriority(a, q);
          assert WithPriority(b[1..], q) == WithPriority(b, q);
        }
      }
      SameGroupsSameList(a[1..], b[1..]);
      assert a == [a[0]] + a[1..];
      assert b == [b[0]] + b[1..];
    }
  }

  /** Any two stable sorts of the same list are the same list. */
  lemma StableSortUnique(a: seq<Subscriber>, b: seq<Subscriber>, s: seq<Subscriber>)
    requires IsStableSortOf(a, s) && IsStableSortOf(b, s)
    ensures a == b
  {
    SameGroupsSameList(a, b);
  }

  lemma {:induction false} CountWithinGroup(s: seq<Subscriber>, e: Subscriber)
    ensures multiset(s)[e] == multiset(WithPriority(s, e.priority))[e]
    decreases |s|
  {
    if |s| > 0 {
      assert s == [s[0]] + s[1..];
      CountWithinGroup(s[1..], e);
    }
  }

  /** A stable sort only reorders: it keeps every registration, as often as it occurs. */
  lemma StableSortIsPermutation(sorted: seq<Subscriber>, s: seq<Subscriber>)
    requires IsStableSortOf(sorted, s)
    ensures multiset(sorted) == multiset(s)
  {
    forall e ensures multiset(sorted)[e] == multiset(s)[e] {
      CountWithinGroup(sorted, e);
      CountWithinGroup(s, e);
    }
  }

  /** `r` is `s` with some entries deleted, the others kept in their order. */
  ghost predicate IsSubsequence(r: seq<Subscriber>, s: seq<Subscriber>)
    decreases |s|
  {
    || |r| == 0
    || (&& |s| > 0
        && ((r[0] == s[0] && IsSubsequence(r[1..], s[1..])) || IsSubsequence(r, s[1..])))
  }

  /** `s` without the registrations of callback `cb`. */
  function Without(s: seq<Subscriber>, cb: CallbackId): seq<Subscriber>
    decreases |s|
  {
    if |s| == 0 then []
    else (if s[0].callback == cb then [] else [s[0]]) + Without(s[1..], cb)
  }

  /**
   * Removal deletes exactly the registrations of `cb`: every other one is
   * kept, as often as before and in the same relative order.
   */
  lemma WithoutIsFilter(s: seq<Subscriber>, cb: CallbackId)
    ensures forall e :: multiset(Without(s, cb))[e] == if e.callback == cb then 0 else multiset(s)[e]
    ensures IsSubsequence(Without(s, cb), s)
  {
    forall e ensures multiset(Without(s, cb))[e] == if e.callback == cb then 0 else multiset(s)[e] {
      WithoutCount(s, cb, e);
    }
    WithoutKeepsOrder(s, cb);
  }

  lemma {:induction false} WithoutCount(s: seq<Subscriber>, cb: CallbackId, e: Subscriber)
    ensures multiset(Without(s, cb))[e] == if e.callback == cb then 0 else multiset(s)[e]
    decreases |s|
  {
    if |s| > 0 {
      var head := if s[0].callback == cb then [] else [s[0]];
      WithoutCount(s[1..], cb, e);
      assert s == [s[0]] + s[1..];
      assert multiset(Without(s, cb)) == multiset(head) + multiset(Without(s[1..], cb));
    }
  }

  lemma {:induction false} WithoutKeepsOrder(s: seq<Subscriber>, cb: CallbackId)
    ensures IsSubsequence(Without(s, cb), s)
    decreases |s|
  {
    if |s| > 0 {
      var rest := Without(s[1..], cb);
      WithoutKeepsOrder(s[1..], cb);
      if s[0].callback != cb {
        assert Without(s, cb) == [s[0]] + rest;
        assert ([s[0]] + rest)[1..] == rest;
      } else {
        assert Without(s, cb) == rest;
      }
    }
  }

  /** Removing a callback that is not registered changes nothing. */
  lemma {:induction false} WithoutAbsent(s: seq<Subscriber>, cb: CallbackId)
    requires forall i :: 0 <= i < |s| ==> s[i].callback != cb
    ensures Without(s, cb) == s
    decreases |s|
  {
    if |s| > 0 {
      WithoutAbsent(s[1..], cb);
      assert s == [s[0]] + s[1..];
    }
  }

  /** Removing the same callback twice is removing it once. */
  lemma WithoutIdempotent(s: seq<Subscriber>, cb: CallbackId)
    ensures Without(Without(s, cb), cb) == Without(s, cb)
  {
    var r := Without(s, cb);
    WithoutIsFilter(s, cb);
    forall i | 0 <= i < |r| ensures r[i].callback != cb {
      assert r[i] in multiset(r);
    }
    WithoutAbsent(r, cb);
  }

  /** Removal works entry by entry: it distributes over concatenation. */
  lemma {:induction false} WithoutAppend(a: seq<Subscriber>, b: seq<Subscriber>, cb: CallbackId)
    ensures Without(a + b, cb) == Without(a, cb) + Without(b, cb)
    decreases |a|
  {
    if |a| == 0 {
      assert a + b == b;
    } else {
      var head := if a[0].callback == cb then [] else [a[0]];
      assert (a + b)[0] == a[0];
      assert (a + b)[1..] == a[1..] + b;
      assert Without(a + b, cb) == head + Without(a[1..] + b, cb);
      WithoutAppend(a[1..], b, cb);
      assert Without(a, cb) == head + Without(a[1..], cb);
    }
  }

  lemma {:induction false} CallbacksAppend(a: seq<Subscriber>, b: seq<Subscriber>)
    ensures Callbacks(a + b) == Callbacks(a) + Callbacks(b)
  {
  }

  /** Reordering registrations reorders their callbacks the same way. */
  lemma {:induction false} CallbacksOfPermutation(a: seq<Subscriber>, b: seq<Subscriber>)
    requires multiset(a) == multiset(b)
    ensures multiset(Callbacks(a)) == multiset(Callbacks(b))
    decreases |a|
  {
    if |a| == 0 {
      assert |b| == |multiset(b)| == 0;
    } else {
      var x := a[0];
      assert x in multiset(b);
      var i :| 0 <= i < |b| && b[i] == x;
      var b' := b[..i] + b[i + 1..];
      RemoveOne(a, b, i);
      CallbacksOfPermutation(a[1..], b');
      assert a == [x] + a[1..];
      assert b == b[..i] + [x] + b[i + 1..];
      CallbacksAppend([x], a[1..]);
      CallbacksAppend(b[..i], b[i + 1..]);
      CallbacksAppend(b[..i] + [x], b[i + 1..]);
      CallbacksAppend(b[..i], [x]);
    }
  }

  /** Taking the same registration out of two permutations leaves permutations. */
  lemma RemoveOne(a: seq<Subscriber>, b: seq<Subscriber>, i: int)
    requires multiset(a) == multiset(b) && |a| > 0 && 0 <= i < |b| && b[i] == a[0]
    ensures multiset(a[1..]) == multiset(b[..i] + b[i + 1..])
  {
    var x := a[0];
    var b' := b[..i] + b[i + 1..];
    assert b == b[..i] + [x] + b[i + 1..];
    assert a == [x] + a[1..];
    assert multiset(b) == multiset(b[..i]) + multiset([x]) + multiset(b[i + 1..]);
    assert multiset(b') == multiset(b[..i]) + multiset(b[i + 1..]);
    forall e ensures multiset(a[1..])[e] == multiset(b')[e] {
      assert multiset(a)[e] == multiset([x])[e] + multiset(a[1..])[e];
      assert multiset(b)[e] == multiset([x])[e] + multiset(b')[e];
    }
  }

  lemma SingletonGroup(x: Subscriber, p: int)
    ensures WithPriority([x], p) == if x.priority == p then [x] else []
  {
  }

  lemma Groups3(a: Subscriber, b: Subscriber, c: Subscriber, p: int)
    ensures WithPriority([a, b, c], p) == WithPriority([a], p) + WithPriority([b], p) + WithPriority([c], p)
  {
  }
}
