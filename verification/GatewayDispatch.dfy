/** What one dispatch pass does with work_list. */
module GatewayDispatch {
  import opened Common
  import opened GatewayTypes
  import opened GatewaySpec
  import opened GatewayInvariant

  // ----- where each request belongs, seen from the state s0 before the pass

  /** The i-th entry of the list is an IoT node that is called so. */
  ghost predicate CalledAt(s: State, i: nat, name: string) {
    && i < |s.order| && s.order[i] in s.nodes
    && s.nodes[s.order[i]].data.Iot? && s.nodes[s.order[i]].data.iot.name == name
  }

  /** The request is for p: of the listed nodes with the name it asks for, p is the first. */
  ghost predicate IsFor(s: State, r: Request, p: EventNode) {
    && r.data.Some?
    && exists i: nat :: CalledAt(s, i, r.data.value.nodeName) && s.order[i] == p
         && forall j: nat :: j < i ==> !CalledAt(s, j, r.data.value.nodeName)
  }

  /** No listed node has the name that the request asks for. */
  ghost predicate ForNobody(s: State, r: Request) {
    r.data.Some? ==> forall i: nat :: !CalledAt(s, i, r.data.value.nodeName)
  }

  /** The node that the search of the dispatch finds is the first one with that name, and it finds one unless no
      node has it. */
  lemma MatchIsByName(s: State, r: Request)
    ensures forall p :: MatchOf(s, r) == Some(p) <==> IsFor(s, r, p)
    ensures MatchOf(s, r).None? <==> ForNobody(s, r)
  {
    if r.data.Some? {
      var name := r.data.value.nodeName;
      SearchIsByName(s, 0, name);
      assert s.order[0..] == s.order;
      hide FirstNamed, CalledAt;
      if MatchOf(s, r).Some? {
        var i: nat :| CalledAt(s, i, name) && s.order[i] == MatchOf(s, r).value
          && forall j: nat :: j < i ==> !CalledAt(s, j, name);
        forall p | IsFor(s, r, p)
          ensures MatchOf(s, r) == Some(p)
        {
          var k: nat :| CalledAt(s, k, name) && s.order[k] == p && forall j: nat :: j < k ==> !CalledAt(s, j, name);
          assert k == i;
        }
      }
    }
  }

  lemma {:induction false} SearchIsByName(s: State, i: nat, name: string)
    requires i <= |s.order|
    ensures var found := FirstNamed(s.order[i..], s.nodes, name);
      && (found.None? ==> forall j: nat :: i <= j ==> !CalledAt(s, j, name))
      && (found.Some? ==> exists k: nat :: i <= k && CalledAt(s, k, name) && s.order[k] == found.value
                            && forall j: nat :: i <= j < k ==> !CalledAt(s, j, name))
    decreases |s.order| - i
  {
    if i < |s.order| {
      assert s.order[i..][0] == s.order[i] && s.order[i..][1..] == s.order[i + 1..];
      assert Named(s.nodes, s.order[i], name) <==> CalledAt(s, i, name);
      SearchIsByName(s, i + 1, name);
      hide CalledAt, Named;
      if !CalledAt(s, i, name) && FirstNamed(s.order[i + 1..], s.nodes, name).Some? {
        var k: nat :| i + 1 <= k && CalledAt(s, k, name)
          && s.order[k] == FirstNamed(s.order[i + 1..], s.nodes, name).value
          && forall j: nat :: i + 1 <= j < k ==> !CalledAt(s, j, name);
        assert forall j: nat :: i <= j < k ==> !CalledAt(s, j, name);
      }
    } else {
      assert s.order[i..] == [];
    }
  }

  /** The requests of w for node p, in order. */
  ghost function For(s0: State, p: EventNode, w: seq<Request>): seq<Request> {
    if w == [] then [] else (if IsFor(s0, w[0], p) then [w[0]] else []) + For(s0, p, w[1..])
  }

  /** The requests of w that no node answers to, in order. */
  ghost function Unmatched(s0: State, w: seq<Request>): seq<Request> {
    if w == [] then [] else (if ForNobody(s0, w[0]) then [w[0]] else []) + Unmatched(s0, w[1..])
  }

  /** The position of the first matched request, |w| if there is none. */
  ghost function FirstMatch(s0: State, w: seq<Request>): (f: nat)
    ensures f <= |w|
    ensures forall i :: 0 <= i < f ==> ForNobody(s0, w[i])
    ensures f < |w| ==> !ForNobody(s0, w[f])
  {
    if w == [] || !ForNobody(s0, w[0]) then 0 else 1 + FirstMatch(s0, w[1..])
  }

  ghost predicate WithData(w: seq<Request>) {
    forall i :: 0 <= i < |w| ==> w[i].data.Some?
  }

  /** Each sender is told, by the broker its request came by, that there is no such node. */
  ghost function Errors(w: seq<Request>): seq<Publication>
    requires WithData(w)
  {
    seq(|w|, i requires 0 <= i < |w| =>
      var to := w[i].data.value; Publication(ToClient(to.sender), to.broker, NodeNotFound(to.nodeName)))
  }

  // ----- enqueueing does not move targets

  ghost predicate SameNames(s: State, s': State) {
    && s'.order == s.order
    && forall p :: p in s.order ==>
      (p in s.nodes && s.nodes[p].data.Iot? <==> p in s'.nodes && s'.nodes[p].data.Iot?)
      && (p in s.nodes && s.nodes[p].data.Iot? ==> s.nodes[p].data.iot.name == s'.nodes[p].data.iot.name)
  }

  lemma {:induction false} FirstNamedSame(order: seq<EventNode>, nodes: map<EventNode, NodeData>,
    nodes': map<EventNode, NodeData>, name: string)
    requires forall p :: p in order ==> (Named(nodes, p, name) <==> Named(nodes', p, name))
    ensures FirstNamed(order, nodes, name) == FirstNamed(order, nodes', name)
  {
    if order != [] {
      FirstNamedSame(order[1..], nodes, nodes', name);
    }
  }

  lemma MatchSame(s: State, s': State, r: Request)
    requires SameNames(s, s')
    ensures MatchOf(s', r) == MatchOf(s, r)
  {
    if r.data.Some? {
      FirstNamedSame(s.order, s.nodes, s'.nodes, r.data.value.nodeName);
    }
  }

  // ----- the pass

  lemma TakenShape(s: State, k: nat)
    requires k < |s.work|
    ensures Taken(s, k).work[..k] == s.work[..k] && Taken(s, k).work[k..] == s.work[k..][1..]
    ensures s.work[k..][0] == s.work[k] && s.work[k + 1..] == s.work[k..][1..]
    ensures s.work[..k + 1] == s.work[..k] + [s.work[k]]
    ensures WithData(s.work) ==> WithData(Taken(s, k).work) && s.work[k].data.Some?
  {
    assert forall i :: 0 <= i < |Taken(s, k).work| ==> Taken(s, k).work[i] == s.work[if i < k then i else i + 1];
  }

  /** Every IoT node of s got the given requests at the tail of its queue, and nothing else of it changed
      but the record of what was enqueued. */
  ghost predicate Delivered(s0: State, s: State, s': State, w: seq<Request>) {
    && s'.nodes.Keys == s.nodes.Keys
    && forall p :: p in s.nodes ==>
      if s.nodes[p].data.Iot? then
        var d := s.nodes[p].data.iot;
        s'.nodes[p] == s.nodes[p].(data := Iot(d.(requests := d.requests + For(s0, p, w),
                                                 hist := d.hist.(enqueued := d.hist.enqueued + Bodies(For(s0, p, w))))))
      else s'.nodes[p] == s.nodes[p]
  }

  lemma BodiesConcat(a: seq<Request>, b: seq<Request>)
    ensures Bodies(a + b) == Bodies(a) + Bodies(b)
    ensures |a| == 1 ==> Bodies(a) == [BodyOf(a[0])]
  {
  }

  lemma DeliveredNothing(s0: State, s: State)
    ensures Delivered(s0, s, s, [])
  {
    forall p | p in s.nodes && s.nodes[p].data.Iot?
      ensures var d := s.nodes[p].data.iot;
        d.requests + [] == d.requests && d.hist.enqueued + Bodies([]) == d.hist.enqueued
    {
    }
  }

  /** Delivering the first request, then the others, delivers all. */
  lemma DeliveredCons(s0: State, s: State, s1: State, s': State, w: seq<Request>, q: EventNode)
    requires w != [] && MatchOf(s0, w[0]) == Some(q) && IsIot(s, q)
    requires s1.nodes == Enqueue(s, q, w[0]).nodes && Delivered(s0, s1, s', w[1..])
    ensures Delivered(s0, s, s', w)
  {
    MatchIsByName(s0, w[0]);
    forall p | p in s.nodes && s.nodes[p].data.Iot?
      ensures var d := s.nodes[p].data.iot;
        s'.nodes[p] == s.nodes[p].(data := Iot(d.(requests := d.requests + For(s0, p, w),
                                                 hist := d.hist.(enqueued := d.hist.enqueued + Bodies(For(s0, p, w))))))
    {
      hide MatchOf, IsFor, Bodies;
      var d, d1 := s.nodes[p].data.iot, s1.nodes[p].data.iot;
      var rest := For(s0, p, w[1..]);
      if p == q {
        BodiesConcat([w[0]], rest);
        ConcatAssociates(d.requests, [w[0]], rest);
        ConcatAssociates(d.hist.enqueued, [BodyOf(w[0])], Bodies(rest));
      } else {
        assert For(s0, p, w) == rest;
      }
    }
    assert s1.nodes.Keys == s.nodes.Keys;
  }

  lemma DeliveredSkip(s0: State, s: State, s1: State, s': State, w: seq<Request>)
    requires w != [] && MatchOf(s0, w[0]).None?
    requires s1.nodes == s.nodes && Delivered(s0, s1, s', w[1..])
    ensures Delivered(s0, s, s', w)
  {
    MatchIsByName(s0, w[0]);
    hide MatchOf, IsFor;
    assert forall p :: For(s0, p, w) == For(s0, p, w[1..]);
  }

  lemma EnqueueNodes(s: State, k: nat, p: EventNode, r: Request)
    requires k < |s.work| && IsIot(s, p)
    ensures Enqueue(Taken(s, k), p, r).nodes == Enqueue(s, p, r).nodes
  {
  }

  lemma EnqueueKeepsNames(s0: State, s: State, p: EventNode, r: Request)
    requires SameNames(s0, s) && IsIot(s, p)
    ensures SameNames(s0, Enqueue(s, p, r))
  {
  }

  lemma ErrorsCons(r: Request, w: seq<Request>)
    requires r.data.Some? && WithData(w)
    ensures Errors([r] + w) == [ErrorReply(r)] + Errors(w)
  {
  }

  lemma UnmatchedHasData(s0: State, w: seq<Request>)
    requires WithData(w)
    ensures WithData(Unmatched(s0, w))
  {
    if w != [] {
      UnmatchedHasData(s0, w[1..]);
    }
  }

  lemma FirstMatchCons(s0: State, w: seq<Request>)
    requires w != []
    ensures MatchOf(s0, w[0]).Some? ==> FirstMatch(s0, w) == 0
    ensures MatchOf(s0, w[0]).None? ==>
      FirstMatch(s0, w) == 1 + FirstMatch(s0, w[1..])
      && w[..FirstMatch(s0, w)] == [w[0]] + w[1..][..FirstMatch(s0, w[1..])]
      && w[FirstMatch(s0, w)..] == w[1..][FirstMatch(s0, w[1..])..]
  {
    MatchIsByName(s0, w[0]);
    hide MatchOf, IsFor, ForNobody;
  }

  lemma UnmatchedCons(s0: State, w: seq<Request>)
    requires w != []
    ensures MatchOf(s0, w[0]).Some? ==> Unmatched(s0, w) == Unmatched(s0, w[1..])
    ensures MatchOf(s0, w[0]).None? ==>
      forall a: seq<Request> :: a + Unmatched(s0, w) == (a + [w[0]]) + Unmatched(s0, w[1..])
  {
    MatchIsByName(s0, w[0]);
    hide MatchOf, IsFor, ForNobody;
  }

  /** What the pass does with a matched request at k, before it goes on. */
  lemma TakeMatched(s0: State, s: State, k: nat, p: EventNode, s': State)
    requires SameNames(s0, s) && k < |s.work| && WithData(s.work) && MatchOf(s0, s.work[k]) == Some(p) && IsIot(s, p)
    ensures IsIot(Taken(s, k), p)
    ensures var s1 := Enqueue(Taken(s, k), p, s.work[k]);
      && SameNames(s0, s1) && WithData(s1.work) && s1.published == s.published
      && |s1.work| == |s.work| - 1 && s1.work[..k] == s.work[..k] && s1.work[k..] == s.work[k..][1..]
      && Unmatched(s0, s.work[k..]) == Unmatched(s0, s1.work[k..])
      && (Delivered(s0, s1, s', s1.work[k..]) ==> Delivered(s0, s, s', s.work[k..]))
  {
    TakenShape(s, k);
    UnmatchedCons(s0, s.work[k..]);
    var s1 := Enqueue(Taken(s, k), p, s.work[k]);
    EnqueueIsLonger(Taken(s, k), p, s.work[k]);
    EnqueueKeepsNames(s0, Taken(s, k), p, s.work[k]);
    EnqueueNodes(s, k, p, s.work[k]);
    hide Enqueue, MatchOf, Delivered, SameNames, Unmatched;
    if Delivered(s0, s1, s', s1.work[k..]) {
      DeliveredCons(s0, s, s1, s', s.work[k..], p);
    }
  }

  /** What the pass does with an unmatched request at k that it answers, before it goes on. */
  lemma AnswerUnmatched(s0: State, s: State, s': State)
    requires SameNames(s0, s) && s.work != [] && WithData(s.work) && MatchOf(s0, s.work[0]).None?
    ensures var s1 := Publish(Taken(s, 0), [ErrorReply(s.work[0])]);
      && SameNames(s0, s1) && WithData(s1.work) && s1.work == s.work[1..]
      && s.work[0].data.Some? && Taken(s, 0).published == s.published
      && (Delivered(s0, s1, s', s1.work) ==> Delivered(s0, s, s', s.work))
  {
    var r := s.work[0];
    var s1 := Publish(Taken(s, 0), [ErrorReply(r)]);
    TakenShape(s, 0);
    assert s1.work == s.work[1..];
    hide MatchOf, Delivered, SameNames;
    if Delivered(s0, s1, s', s1.work) {
      DeliveredSkip(s0, s, s1, s', s.work);
    }
  }

  lemma AnswerAdds(s: State, r: Request, w: seq<Request>)
    requires r.data.Some? && WithData(w)
    ensures WithData([r] + w) && Publish(s, [ErrorReply(r)]).published + Errors(w) == s.published + Errors([r] + w)
  {
    ErrorsCons(r, w);
    hide Errors;
    ConcatAssociates(s.published, [ErrorReply(r)], Errors(w));
  }

  /** After a match the flag stays set: unmatched requests are left where they are. */
  lemma {:induction false} DispatchAfterMatch(s0: State, s: State, k: nat)
    requires SameNames(s0, s) && k <= |s.work| && WithData(s.work)
    ensures var s', w := DispatchFrom(s, k, true, false), s.work[k..];
      && s'.work == s.work[..k] + Unmatched(s0, w)
      && s'.published == s.published
      && Delivered(s0, s, s', w)
    decreases |s.work| - k
  {
    if k == |s.work| {
      DeliveredNothing(s0, s);
    } else {
      var r, w, s' := s.work[k], s.work[k..], DispatchFrom(s, k, true, false);
      MatchSame(s0, s, r);
      TakenShape(s, k);
      hide MatchOf, Enqueue, Delivered, WithData, SameNames, Unmatched;
      match MatchOf(s, r)
      case Some(p) =>
        TakeMatched(s0, s, k, p, s');
        DispatchAfterMatch(s0, Enqueue(Taken(s, k), p, r), k);
      case None =>
        DispatchAfterMatch(s0, s, k + 1);
        DeliveredSkip(s0, s, s, s', w);
        UnmatchedCons(s0, w);
    }
  }

  /** Before the first match every request is answered with an error and dropped. */
  lemma {:induction false} DispatchBeforeMatch(s0: State, s: State)
    requires SameNames(s0, s) && WithData(s.work)
    ensures var s', w, f := DispatchFrom(s, 0, false, false), s.work, FirstMatch(s0, s.work);
      && s'.work == Unmatched(s0, w[f..])
      && s'.published == s.published + Errors(w[..f])
      && Delivered(s0, s, s', w)
    decreases |s.work|
  {
    hide *;
    var w, s' := s.work, DispatchFrom(s, 0, false, false);
    NothingToAnswer(s0, s.published);
    assert w[0..] == w && w[..0] == [];
    if w == [] {
      DeliveredNothing(s0, s);
      DispatchUnfolds(s, 0, false, false);
    } else {
      var r := w[0];
      MatchSame(s0, s, r);
      TakenShape(s, 0);
      FirstMatchCons(s0, w);
      DispatchUnfolds(s, 0, false, false);
      match MatchOf(s, r)
      case Some(p) =>
        TakeMatched(s0, s, 0, p, s');
        var s1 := Enqueue(Taken(s, 0), p, r);
        DispatchAfterMatch(s0, s1, 0);
        assert s1.work[..0] + Unmatched(s0, s1.work[0..]) == Unmatched(s0, s1.work[0..]);
      case None =>
        AnswerUnmatched(s0, s, s');
        var f := FirstMatch(s0, w[1..]);
        DispatchBeforeMatch(s0, Publish(Taken(s, 0), [ErrorReply(r)]));
        WithDataPrefix(w[1..], f);
        AnswerAdds(Taken(s, 0), r, w[1..][..f]);
    }
  }

  lemma NothingToAnswer(s0: State, pubs: seq<Publication>)
    ensures WithData([]) && pubs + Errors([]) == pubs && Unmatched(s0, []) == [] && FirstMatch(s0, []) == 0
  {
  }

  lemma WithDataPrefix(w: seq<Request>, f: nat)
    requires WithData(w) && f <= |w|
    ensures WithData(w[..f])
  {
  }

  /** The variant that clears the flag for every request answers every unmatched one. */
  lemma {:induction false} DispatchClearing(s0: State, s: State)
    requires SameNames(s0, s) && WithData(s.work)
    ensures WithData(Unmatched(s0, s.work))
    ensures var s', w := DispatchFrom(s, 0, false, true), s.work;
      s'.work == [] && s'.published == s.published + Errors(Unmatched(s0, w)) && Delivered(s0, s, s', w)
    decreases |s.work|
  {
    var w, s' := s.work, DispatchFrom(s, 0, false, true);
    UnmatchedHasData(s0, w);
    if w == [] {
      DeliveredNothing(s0, s);
      assert s.published + Errors([]) == s.published;
    } else {
      var r := w[0];
      MatchSame(s0, s, r);
      TakenShape(s, 0);
      UnmatchedCons(s0, w);
      assert w[0..] == w && w[..0] == [];
      hide MatchOf, Enqueue, Delivered, WithData, SameNames, Unmatched, Errors;
      match MatchOf(s, r)
      case Some(p) =>
        TakeMatched(s0, s, 0, p, s');
        var s1 := Enqueue(Taken(s, 0), p, r);
        assert s1.work[0..] == s1.work;
        DispatchClearing(s0, s1);
      case None =>
        AnswerUnmatched(s0, s, s');
        DispatchClearing(s0, Publish(Taken(s, 0), [ErrorReply(r)]));
        AnswerAdds(Taken(s, 0), r, Unmatched(s0, w[1..]));
        assert [] + Unmatched(s0, w) == Unmatched(s0, w) && [] + [r] == [r];
    }
  }

  /** One dispatch pass: matched requests go to the tail of their node's queue in order; the unmatched ones
      before the first match are answered and dropped, those after it stay in order. */
  lemma DispatchPartitions(s: State)
    requires Inv(s)
    ensures var s', w, f := Dispatch(s), s.work, FirstMatch(s, s.work);
      && WithData(w)
      && Delivered(s, s, s', w)
      && s'.published == s.published + Errors(w[..f])
      && s'.work == Unmatched(s, w[f..])
  {
    DispatchBeforeMatch(s, s);
  }

  lemma {:induction false} UnmatchedNoneIff(s0: State, w: seq<Request>)
    ensures Unmatched(s0, w) == [] <==> forall j :: 0 <= j < |w| ==> !ForNobody(s0, w[j])
  {
    hide ForNobody;
    if w != [] {
      UnmatchedNoneIff(s0, w[1..]);
      assert forall j :: 0 < j < |w| ==> w[j] == w[1..][j - 1];
    }
  }

  /** The pass leaves work behind exactly when an unmatched request stands after a matched one; with the flag
      cleared for every request it never does. */
  lemma DispatchDrainsIff(s: State)
    requires Inv(s)
    ensures Dispatch(s).work == [] <==>
      forall i, j :: 0 <= i < j < |s.work| && !ForNobody(s, s.work[i]) ==> !ForNobody(s, s.work[j])
    ensures DispatchFrom(s, 0, false, true).work == []
  {
    DispatchPartitions(s);
    DispatchClearing(s, s);
    LeftoverIff(s, s.work);
  }

  lemma LeftoverIff(s: State, w: seq<Request>)
    ensures Unmatched(s, w[FirstMatch(s, w)..]) == [] <==>
      forall i, j :: 0 <= i < j < |w| && !ForNobody(s, w[i]) ==> !ForNobody(s, w[j])
  {
    hide *;
    var f := FirstMatch(s, w);
    var tail := w[f..];
    UnmatchedNoneIff(s, tail);
    if Unmatched(s, tail) == [] {
      forall i, j | 0 <= i < j < |w| && !ForNobody(s, w[i])
        ensures !ForNobody(s, w[j])
      {
        assert f <= i && tail[j - f] == w[j];
      }
    } else {
      var j :| 0 <= j < |tail| && ForNobody(s, tail[j]);
      assert w[f + j] == tail[j] && tail[0] == w[f];
    }
  }

  /** Nothing is lost or made up: requests in queues, on the list and answered add up. */
  lemma {:induction false} DispatchConserves(s: State, k: nat, found: bool, clear: bool)
    requires Inv(s) && k <= |s.work|
    ensures var s' := DispatchFrom(s, k, found, clear);
      Waiting(s') + |s'.work| + |s'.published| == Waiting(s) + |s.work| + |s.published|
    decreases |s.work| - k
  {
    if k < |s.work| {
      var r, rest := s.work[k], Taken(s, k);
      TakenKeepsInv(s, k);
      hide Inv, Enqueue, MatchOf;
      match MatchOf(s, r)
      case Some(p) =>
        EnqueueKeepsInv(rest, p, r);
        EnqueueIsLonger(rest, p, r);
        DispatchConserves(Enqueue(rest, p, r), k, !clear, clear);
      case None =>
        if found {
          DispatchConserves(s, k + 1, found && !clear, clear);
        } else {
          PublishKeepsInv(rest, [ErrorReply(r)]);
          DispatchConserves(Publish(rest, [ErrorReply(r)]), k, false, clear);
        }
    }
  }
}
