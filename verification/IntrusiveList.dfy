/** The circular doubly linked lists of list.h on the heap, against the sequences of entries they stand for.
    A poisoned pointer is null. */
module IntrusiveList {
  import opened Common

  class ListHead {
    var next: ListHead?
    var prev: ListHead?

    /** INIT_LIST_HEAD */
    constructor ()
      ensures Ring(this, [])
    {
      next, prev := this, this;
      new;
      assert Node(this, [], 0) == this && Node(this, [], 1) == this;
    }
  }

  /** The node at position i of the circle: the head at 0, the entries, and the head again. */
  ghost function Node(head: ListHead, s: seq<ListHead>, i: nat): ListHead
    requires i <= |s| + 1
  {
    if i == 0 || i == |s| + 1 then head else s[i - 1]
  }

  /** next and prev go round the head and the entries of s, in order, and are each other's inverse. */
  ghost predicate Ring(head: ListHead, s: seq<ListHead>)
    reads head, s
  {
    && Distinct(s) && head !in s
    && forall i: nat :: i <= |s| ==> Linked(Node(head, s, i), Node(head, s, i + 1))
  }

  ghost predicate Linked(a: ListHead, b: ListHead)
    reads a, b
  {
    a.next == b && b.prev == a
  }

  /** The entries without the k-th. */
  ghost function Drop(s: seq<ListHead>, k: nat): seq<ListHead>
    requires k < |s|
  {
    s[..k] + s[k + 1..]
  }

  lemma RingLink(head: ListHead, s: seq<ListHead>, i: nat)
    requires Ring(head, s) && i <= |s|
    ensures Linked(Node(head, s, i), Node(head, s, i + 1))
  {
  }

  // ----- the primitive links

  /** __list_add */
  method LinkBetween(entry: ListHead, prev: ListHead, next: ListHead)
    requires entry != prev && entry != next
    modifies entry, prev, next
    ensures entry.next == next && entry.prev == prev && prev.next == entry && next.prev == entry
    ensures prev != next ==> prev.prev == old(prev.prev) && next.next == old(next.next)
  {
    next.prev := entry;
    entry.next := next;
    entry.prev := prev;
    prev.next := entry;
  }

  /** __list_del */
  method Unlink(prev: ListHead, next: ListHead)
    modifies prev, next
    ensures prev.next == next && next.prev == prev
    ensures prev != next ==> prev.prev == old(prev.prev) && next.next == old(next.next)
  {
    next.prev := prev;
    prev.next := next;
  }

  // ----- adding

  method ListAdd(entry: ListHead, head: ListHead, ghost s: seq<ListHead>)
    requires Ring(head, s) && entry != head && entry !in s
    modifies entry, head, Node(head, s, 1)
    ensures Ring(head, [entry] + s)
  {
    RingLink(head, s, 0);
    LinkBetween(entry, head, head.next);
    ghost var s' := [entry] + s;
    assert forall i: nat :: 2 <= i <= |s'| ==>
      Node(head, s', i) == Node(head, s, i - 1) && Node(head, s', i + 1) == Node(head, s, i);
    forall i: nat | i <= |s'|
      ensures Linked(Node(head, s', i), Node(head, s', i + 1))
    {
      if i >= 2 {
        assert old(Linked(Node(head, s, i - 1), Node(head, s, i)));
      }
    }
  }

  method ListAddTail(entry: ListHead, head: ListHead, ghost s: seq<ListHead>)
    requires Ring(head, s) && entry != head && entry !in s
    modifies entry, head, Node(head, s, |s|)
    ensures Ring(head, s + [entry])
  {
    RingLink(head, s, |s|);
    LinkBetween(entry, head.prev, head);
    ghost var s' := s + [entry];
    assert forall i: nat :: i <= |s| ==> Node(head, s', i) == Node(head, s, i);
    forall i: nat | i <= |s'|
      ensures Linked(Node(head, s', i), Node(head, s', i + 1))
    {
      if i < |s| {
        assert old(Linked(Node(head, s, i), Node(head, s, i + 1)));
      }
    }
  }

  // ----- removing

  /** The links that close the gap when the k-th entry is taken out. */
  method CloseGap(entry: ListHead, ghost head: ListHead, ghost s: seq<ListHead>, ghost k: nat)
    requires Ring(head, s) && k < |s| && s[k] == entry
    modifies Node(head, s, k), Node(head, s, k + 2)
    ensures Ring(head, Drop(s, k)) && entry.next == old(entry.next) && entry.prev == old(entry.prev)
    ensures entry !in Drop(s, k)
  {
    RingLink(head, s, k);
    RingLink(head, s, k + 1);
    Unlink(entry.prev, entry.next);
    ghost var s' := Drop(s, k);
    forall i: nat | i <= |s'|
      ensures Linked(Node(head, s', i), Node(head, s', i + 1))
    {
      if i < k {
        assert Node(head, s', i) == Node(head, s, i) && Node(head, s', i + 1) == Node(head, s, i + 1);
        assert old(Linked(Node(head, s, i), Node(head, s, i + 1)));
      } else if i > k {
        assert Node(head, s', i) == Node(head, s, i + 1) && Node(head, s', i + 1) == Node(head, s, i + 2);
        assert old(Linked(Node(head, s, i + 1), Node(head, s, i + 2)));
      } else {
        assert Node(head, s', i) == Node(head, s, k) && Node(head, s', i + 1) == Node(head, s, k + 2);
      }
    }
  }

  method ListDel(entry: ListHead, ghost head: ListHead, ghost s: seq<ListHead>, ghost k: nat)
    requires Ring(head, s) && k < |s| && s[k] == entry
    modifies entry, Node(head, s, k), Node(head, s, k + 2)
    ensures Ring(head, Drop(s, k)) && entry !in Drop(s, k)
    ensures entry.next == null && entry.prev == null
  {
    CloseGap(entry, head, s, k);
    entry.next := null;
    entry.prev := null;
  }

  method ListDelInit(entry: ListHead, ghost head: ListHead, ghost s: seq<ListHead>, ghost k: nat)
    requires Ring(head, s) && k < |s| && s[k] == entry
    modifies entry, Node(head, s, k), Node(head, s, k + 2)
    ensures Ring(head, Drop(s, k)) && entry !in Drop(s, k)
    ensures Ring(entry, [])
  {
    CloseGap(entry, head, s, k);
    entry.next := entry;
    entry.prev := entry;
    assert Node(entry, [], 0) == entry && Node(entry, [], 1) == entry;
  }

  // ----- moving

  /** list_move from one list to the front of another, disjoint one. */
  method ListMove(entry: ListHead, head: ListHead, ghost from: ListHead, ghost s: seq<ListHead>, ghost k: nat,
    ghost t: seq<ListHead>)
    requires Ring(from, s) && k < |s| && s[k] == entry
    requires Ring(head, t) && Disjoint([from] + s, [head] + t)
    modifies entry, Node(from, s, k), Node(from, s, k + 2), head, Node(head, t, 1)
    ensures Ring(from, Drop(s, k)) && Ring(head, [entry] + t)
  {
    Apart(from, s, k, head, t);
    CloseGap(entry, from, s, k);
    ListAdd(entry, head, t);
  }

  method ListMoveTail(entry: ListHead, head: ListHead, ghost from: ListHead, ghost s: seq<ListHead>, ghost k: nat,
    ghost t: seq<ListHead>)
    requires Ring(from, s) && k < |s| && s[k] == entry
    requires Ring(head, t) && Disjoint([from] + s, [head] + t)
    modifies entry, Node(from, s, k), Node(from, s, k + 2), head, Node(head, t, |t|)
    ensures Ring(from, Drop(s, k)) && Ring(head, t + [entry])
  {
    Apart(from, s, k, head, t);
    CloseGap(entry, from, s, k);
    ListAddTail(entry, head, t);
  }

  /** list_move_tail within one list brings the entry to the back. */
  method ListMoveToBack(entry: ListHead, head: ListHead, ghost s: seq<ListHead>, ghost k: nat)
    requires Ring(head, s) && k < |s| && s[k] == entry
    modifies head, s
    ensures Ring(head, Drop(s, k) + [entry])
  {
    CloseGap(entry, head, s, k);
    ListAddTail(entry, head, Drop(s, k));
  }

  /** Whatever an operation touches, a list none of whose nodes is among it is still the list it was. */
  twostate lemma DisjointRingSurvives(touched: set<ListHead>, head: ListHead, s: seq<ListHead>)
    requires old(allocated(head)) && old(allocated(s)) && old(Ring(head, s))
    requires head !in touched && forall x :: x in s ==> x !in touched
    requires forall x: ListHead :: old(allocated(x)) && x !in touched ==> unchanged(x)
    ensures Ring(head, s)
  {
    forall i: nat | i <= |s|
      ensures Linked(Node(head, s, i), Node(head, s, i + 1))
    {
      var a, b := Node(head, s, i), Node(head, s, i + 1);
      assert (a == head || a in s) && (b == head || b in s);
      assert old(Linked(Node(head, s, i), Node(head, s, i + 1)));
      assert unchanged(a) && unchanged(b);
    }
  }

  /** list_move within one list brings the entry to the front. */
  method ListMoveToFront(entry: ListHead, head: ListHead, ghost s: seq<ListHead>, ghost k: nat)
    requires Ring(head, s) && k < |s| && s[k] == entry
    modifies head, s
    ensures Ring(head, [entry] + Drop(s, k))
  {
    CloseGap(entry, head, s, k);
    ListAdd(entry, head, Drop(s, k));
  }

  ghost predicate Disjoint(a: seq<ListHead>, b: seq<ListHead>) {
    forall x :: x in a ==> x !in b
  }

  lemma Apart(from: ListHead, s: seq<ListHead>, k: nat, head: ListHead, t: seq<ListHead>)
    requires k < |s| && Disjoint([from] + s, [head] + t)
    ensures from !in [head] + t && s[k] !in [head] + t && head !in [from] + s
    ensures Node(from, s, k) !in [head] + t && Node(from, s, k + 2) !in [head] + t
    ensures forall x :: x in t ==> x !in s && x != from
    ensures forall y :: y in [head] + t ==> y !in Drop(s, k) && y != from
    ensures Node(head, t, 1) in [head] + t && Node(head, t, |t|) in [head] + t
  {
    assert from in [from] + s && s[k] in [from] + s;
    assert Node(from, s, k) in [from] + s && Node(from, s, k + 2) in [from] + s;
    assert forall x :: x in t ==> x in [head] + t;
    assert forall x :: x in s ==> x in [from] + s;
    assert head in [head] + t;
  }

  method ListEmpty(head: ListHead, ghost s: seq<ListHead>) returns (empty: bool)
    requires Ring(head, s)
    ensures empty <==> s == []
  {
    RingLink(head, s, 0);
    empty := head.next == head;
  }

  // ----- splicing

  /** list_splice_init: the entries of list go in front of those of head, and list is empty afterwards. */
  method ListSpliceInit(list: ListHead, head: ListHead, ghost s: seq<ListHead>, ghost t: seq<ListHead>)
    requires Ring(list, s) && Ring(head, t) && Disjoint([list] + s, [head] + t)
    modifies list, s, head, Node(head, t, 1)
    ensures Ring(list, []) && Ring(head, s + t)
  {
    var empty := ListEmpty(list, s);
    if empty {
      assert s + t == t;
      return;
    }
    Splice(list, head, s, t);
    list.next := list;
    list.prev := list;
    assert Node(list, [], 0) == list && Node(list, [], 1) == list;
  }

  /** __list_splice */
  method Splice(list: ListHead, head: ListHead, ghost s: seq<ListHead>, ghost t: seq<ListHead>)
    requires s != [] && Ring(list, s) && Ring(head, t) && Disjoint([list] + s, [head] + t)
    modifies s, head, Node(head, t, 1)
    ensures Ring(head, s + t) && list !in s + t && list != head
  {
    Apart(list, s, 0, head, t);
    RingLink(list, s, 0);
    RingLink(list, s, |s|);
    RingLink(head, t, 0);
    var first, last, at := list.next, list.prev, head.next;
    assert first == s[0] && last == s[|s| - 1] && at == Node(head, t, 1);
    first.prev := head;
    head.next := first;
    last.next := at;
    at.prev := last;
    ghost var u := s + t;
    DistinctConcat(s, t);
    forall i: nat | i <= |u|
      ensures Linked(Node(head, u, i), Node(head, u, i + 1))
    {
      if 0 < i < |s| {
        assert Node(head, u, i) == Node(list, s, i) && Node(head, u, i + 1) == Node(list, s, i + 1);
        assert old(Linked(Node(list, s, i), Node(list, s, i + 1)));
      } else if i > |s| {
        assert Node(head, u, i) == Node(head, t, i - |s|) && Node(head, u, i + 1) == Node(head, t, i - |s| + 1);
        assert old(Linked(Node(head, t, i - |s|), Node(head, t, i - |s| + 1)));
      }
    }
  }

  lemma DistinctConcat(s: seq<ListHead>, t: seq<ListHead>)
    requires Distinct(s) && Distinct(t) && forall x :: x in t ==> x !in s
    ensures Distinct(s + t)
  {
    forall i, j | 0 <= i < j < |s + t|
      ensures (s + t)[i] != (s + t)[j]
    {
      if i < |s| <= j {
        assert t[j - |s|] in t && s[i] in s;
      }
    }
  }

  // ----- safe iteration

  /** What the loop body does with the entry it visits. */
  datatype Action = Keep | Delete | InsertInFront(entries: seq<ListHead>)

  ghost function ActionAt(acts: map<ListHead, Action>, p: ListHead): Action {
    if p in acts then acts[p] else Keep
  }

  /** The entries the body inserts at p, in the order of its list_add calls. */
  ghost function NewAt(acts: map<ListHead, Action>, p: ListHead): seq<ListHead> {
    if ActionAt(acts, p).InsertInFront? then ActionAt(acts, p).entries else []
  }

  ghost function Kept(s: seq<ListHead>, acts: map<ListHead, Action>): seq<ListHead> {
    if s == [] then []
    else Kept(s[..|s| - 1], acts) + if ActionAt(acts, s[|s| - 1]).Delete? then [] else [s[|s| - 1]]
  }

  ghost function Inserted(s: seq<ListHead>, acts: map<ListHead, Action>): seq<ListHead> {
    if s == [] then []
    else
      Reverse(NewAt(acts, s[|s| - 1])) + Inserted(s[..|s| - 1], acts)
  }

  /** The entries a body may insert are new to the list and never inserted twice. */
  ghost predicate GoodActions(head: ListHead, s: seq<ListHead>, acts: map<ListHead, Action>) {
    && (forall p :: p in s ==> Distinct(NewAt(acts, p)) && forall x :: x in NewAt(acts, p) ==> x != head && x !in s)
    && (forall p, q :: p in s && q in s && p != q ==> Disjoint(NewAt(acts, p), NewAt(acts, q)))
  }

  ghost function Fresh(s: seq<ListHead>, acts: map<ListHead, Action>): set<ListHead> {
    set p, x | p in s && x in NewAt(acts, p) :: x
  }

  lemma {:induction false} InsertedFrom(s: seq<ListHead>, acts: map<ListHead, Action>)
    ensures forall x :: x in Inserted(s, acts) ==> exists p :: p in s && x in NewAt(acts, p)
    ensures forall x :: x in Kept(s, acts) ==> x in s
  {
    if s != [] {
      InsertedFrom(s[..|s| - 1], acts);
      var p := s[|s| - 1];
      forall x | x in Inserted(s, acts)
        ensures exists q :: q in s && x in NewAt(acts, q)
      {
        if x in NewAt(acts, p) {
          assert p in s;
        } else {
          assert Inserted(s, acts) == Reverse(NewAt(acts, p)) + Inserted(s[..|s| - 1], acts);
          ReverseMember(NewAt(acts, p), x);
          assert x in Inserted(s[..|s| - 1], acts);
          var q :| q in s[..|s| - 1] && x in NewAt(acts, q);
          assert q in s;
        }
      }
      assert forall p :: p in s[..|s| - 1] ==> p in s;
      assert s[|s| - 1] in s;
    }
  }

  /** One more entry has been visited. */
  lemma VisitedSnoc(s: seq<ListHead>, acts: map<ListHead, Action>, i: nat)
    requires i < |s|
    ensures Kept(s[..i + 1], acts) == Kept(s[..i], acts) + (if ActionAt(acts, s[i]).Delete? then [] else [s[i]])
    ensures Inserted(s[..i + 1], acts) == Reverse(NewAt(acts, s[i])) + Inserted(s[..i], acts)
  {
    assert s[..i + 1][..i] == s[..i];
  }

  /** The list when i entries have been visited. */
  ghost function Midway(s: seq<ListHead>, acts: map<ListHead, Action>, i: nat): seq<ListHead>
    requires i <= |s|
  {
    Inserted(s[..i], acts) + Kept(s[..i], acts) + s[i..]
  }

  lemma MiddleOf(a: seq<ListHead>, b: seq<ListHead>, x: ListHead, r: seq<ListHead>)
    ensures var m := a + b + ([x] + r);
      && m[|a| + |b|] == x
      && m == a + (b + [x]) + r
      && Drop(m, |a| + |b|) == a + b + r
  {
    var m := a + b + ([x] + r);
    assert m[..|a| + |b|] == a + b && m[|a| + |b| + 1..] == r;
  }

  lemma FrontOf(e: seq<ListHead>, a: seq<ListHead>, b: seq<ListHead>, r: seq<ListHead>)
    ensures (e + a) + b + r == e + (a + b + r)
  {
  }

  ghost function Position(s: seq<ListHead>, acts: map<ListHead, Action>, i: nat): nat
    requires i <= |s|
  {
    |Inserted(s[..i], acts)| + |Kept(s[..i], acts)|
  }

  /** What the step at the i-th entry does to the list. */
  lemma MidwayStep(s: seq<ListHead>, acts: map<ListHead, Action>, i: nat)
    requires i < |s|
    ensures var m, k := Midway(s, acts, i), Position(s, acts, i);
      && k < |m| && m[k] == s[i]
      && (i + 1 < |s| ==> k + 1 < |m| && m[k + 1] == s[i + 1]) && (i + 1 == |s| ==> k + 1 == |m|)
      && Midway(s, acts, i + 1) == match ActionAt(acts, s[i])
           case Keep => m
           case Delete => Drop(m, k)
           case InsertInFront(entries) => Reverse(entries) + m
  {
    var a, b, r := Inserted(s[..i], acts), Kept(s[..i], acts), s[i + 1..];
    VisitedSnoc(s, acts, i);
    assert s[i..] == [s[i]] + r;
    MiddleOf(a, b, s[i], r);
    match ActionAt(acts, s[i])
    case Keep => assert [] + a == a;
    case Delete => assert [] + a == a && b + [] == b;
    case InsertInFront(entries) => FrontOf(Reverse(entries), a, b + [s[i]], r);
  }

  lemma NewEntriesAreNew(head: ListHead, s: seq<ListHead>, acts: map<ListHead, Action>, i: nat)
    requires GoodActions(head, s, acts) && Distinct(s) && i < |s|
    ensures Distinct(NewAt(acts, s[i]))
    ensures forall x :: x in NewAt(acts, s[i]) ==> x != head && x !in Midway(s, acts, i) && x in Fresh(s, acts)
  {
    var pre := s[..i];
    assert s[i] in s;
    InsertedFrom(pre, acts);
    forall p | p in pre
      ensures Disjoint(NewAt(acts, s[i]), NewAt(acts, p))
    {
      assert p in s && p != s[i];
    }
    assert forall x :: x in pre ==> x in s;
    assert forall x :: x in s[i..] ==> x in s;
  }

  lemma MidwayMembers(head: ListHead, s: seq<ListHead>, acts: map<ListHead, Action>, i: nat)
    requires i <= |s|
    ensures forall x :: x in Midway(s, acts, i) ==> x in s || x in Fresh(s, acts)
  {
    InsertedFrom(s[..i], acts);
    forall x | x in Midway(s, acts, i)
      ensures x in s || x in Fresh(s, acts)
    {
      if x in Inserted(s[..i], acts) {
        var p :| p in s[..i] && x in NewAt(acts, p);
        assert p in s;
      }
    }
  }

  lemma NextEntry(head: ListHead, s: seq<ListHead>, acts: map<ListHead, Action>, i: nat)
    requires i < |s| && Ring(head, Midway(s, acts, i))
    ensures s[i].next == (if i + 1 < |s| then s[i + 1] else head)
  {
    MidwayStep(s, acts, i);
    RingLink(head, Midway(s, acts, i), Position(s, acts, i) + 1);
  }

  /** The body at the i-th entry. */
  method VisitEntry(pos: ListHead, head: ListHead, acts: map<ListHead, Action>, ghost s: seq<ListHead>, ghost i: nat)
    requires Distinct(s) && i < |s| && s[i] == pos
    requires Ring(head, Midway(s, acts, i)) && GoodActions(head, s, acts)
    modifies head, s, Fresh(s, acts)
    ensures Ring(head, Midway(s, acts, i + 1))
  {
    ghost var m, k := Midway(s, acts, i), Position(s, acts, i);
    MidwayStep(s, acts, i);
    MidwayMembers(head, s, acts, i);
    hide Midway, Position;
    if pos in acts {
      match acts[pos]
      case Keep =>
      case Delete =>
        assert Node(head, m, k) in [head] + m && Node(head, m, k + 2) in [head] + m;
        ListDel(pos, head, m, k);
      case InsertInFront(entries) =>
        NewEntriesAreNew(head, s, acts, i);
        ListAddAll(entries, head, m);
    }
  }

  /** The list_add calls of one body, one after the other. */
  method ListAddAll(entries: seq<ListHead>, head: ListHead, ghost m: seq<ListHead>)
    requires Ring(head, m) && Distinct(entries) && forall x :: x in entries ==> x != head && x !in m
    modifies head, m, entries
    ensures Ring(head, Reverse(entries) + m)
  {
    var j := 0;
    assert Reverse(entries[..0]) + m == m;
    while j < |entries|
      invariant j <= |entries| && Ring(head, Reverse(entries[..j]) + m)
    {
      ghost var now := Reverse(entries[..j]) + m;
      AddedOneMore(entries, j, m);
      assert Node(head, now, 1) in [head] + now;
      ListAdd(entries[j], head, now);
      j := j + 1;
    }
    assert entries[..j] == entries;
  }

  lemma AddedOneMore(entries: seq<ListHead>, j: nat, m: seq<ListHead>)
    requires Distinct(entries) && j < |entries| && entries[j] !in m
    ensures Reverse(entries[..j + 1]) + m == [entries[j]] + (Reverse(entries[..j]) + m)
    ensures entries[j] !in Reverse(entries[..j]) + m
    ensures forall x :: x in Reverse(entries[..j]) ==> x in entries
  {
    assert entries[..j + 1] == entries[..j] + [entries[j]];
    ReverseAppend(entries[..j], [entries[j]]);
    assert Reverse([entries[j]]) == [entries[j]];
    var pre := entries[..j];
    ReverseMember(pre, entries[j]);
    forall x | x in Reverse(pre)
      ensures x in entries
    {
      ReverseMember(pre, x);
      assert x in pre;
    }
  }

  lemma StartOfList(head: ListHead, s: seq<ListHead>, acts: map<ListHead, Action>)
    requires Ring(head, s)
    ensures Distinct(s) && forall j :: 0 <= j < |s| ==> s[j] != head
    ensures Ring(head, Midway(s, acts, 0)) && Midway(s, acts, |s|) == Inserted(s, acts) + Kept(s, acts) && s[..|s|] == s
    ensures head.next == (if s != [] then s[0] else head)
    ensures s != [] ==> s[0].next == (if 1 < |s| then s[1] else head)
  {
    assert s[..|s|] == s;
    assert Midway(s, acts, 0) == s;
    assert forall j :: 0 <= j < |s| ==> s[j] in s;
    RingLink(head, s, 0);
    if s != [] {
      RingLink(head, s, 1);
    }
  }

  /** list_for_each_entry_safe, with a body that may delete the entry it visits or insert new ones at the
      front, as many as it likes: it visits exactly the entries that were there at the start, each once and in order,
      and ends. */
  method ForEachEntrySafe(head: ListHead, ghost s: seq<ListHead>, acts: map<ListHead, Action>)
    returns (visited: seq<ListHead>)
    requires Ring(head, s) && GoodActions(head, s, acts)
    modifies head, s, Fresh(s, acts)
    ensures visited == s
    ensures Ring(head, Inserted(s, acts) + Kept(s, acts))
  {
    hide *;
    StartOfList(head, s, acts);
    visited := [];
    ghost var i := 0;
    var pos := head.next;
    var n := pos.next;
    while pos != head
      invariant i <= |s| && visited == s[..i]
      invariant Ring(head, Midway(s, acts, i))
      invariant pos == (if i < |s| then s[i] else head)
      invariant i < |s| ==> n == (if i + 1 < |s| then s[i + 1] else head)
      decreases |s| - i
    {
      visited := visited + [pos];
      VisitEntry(pos, head, acts, s, i);
      i := i + 1;
      pos := n;
      n := pos.next;
      if i < |s| {
        NextEntry(head, s, acts, i);
      }
    }
  }
}
