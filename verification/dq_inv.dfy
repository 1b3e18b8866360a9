/** What every step of the distributed queue keeps. */
module DQInv {
  import opened DQMachine
  import opened Ring

  ghost predicate NodeAt(s: State, b: nat, k: nat)
    requires b < |s.order| && k < |s.order[b]|
  {
    var l := s.order[b];
    && 0 <= l[k] < |s.nodes| && s.nodes[l[k]].home == b
    && s.nodes[l[k]].next == if k + 1 < |l| then Word(l[k + 1], 1) else Word(NULL, 0)
  }

  /** The linked nodes of a backend form one list; the head is not behind the tail, which names the last node or the one before. */
  ghost predicate BackOk(s: State, b: nat)
    requires Shape(s) && b < |s.head|
  {
    var l := s.order[b];
    && (forall k {:trigger NodeAt(s, b, k)} :: 0 <= k < |l| ==> NodeAt(s, b, k))
    && (forall j, k :: 0 <= j < k < |l| ==> l[j] != l[k])
    && s.head[b].tag <= s.tail[b].tag < |l| && |l| - 2 <= s.tail[b].tag
    && s.head[b].ptr == l[s.head[b].tag] && s.tail[b].ptr == l[s.tail[b].tag]
  }

  ghost predicate FreeOk(s: State, n: nat)
    requires n < |s.nodes|
  {
    s.nodes[n].home == -1 ==> s.nodes[n].next == Word(NULL, 0)
  }

  // ---------------------------------------------------------------- threads

  /** A snapshot of the head or the tail of a backend: it is current unless the tag has moved on. */
  ghost predicate Snap(s: State, b: nat, seen: Word, now: Word)
    requires b < |s.order|
  {
    seen.tag <= now.tag && seen.tag < |s.order[b]| && s.order[b][seen.tag] == seen.ptr && (seen.tag == now.tag ==> seen == now)
  }

  ghost predicate NextSnap(s: State, b: nat, of: Word, next: Word)
    requires b < |s.order|
  {
    next == Word(NULL, 0) || (of.tag + 1 < |s.order[b]| && next == Word(s.order[b][of.tag + 1], 1))
  }

  predicate Unlinked(p: PC) { p == PutTail || p == PutNext || p == PutCheck || p == PutLink || p == PutHelp }

  ghost predicate PutOk(s: State, t: nat)
    requires Shape(s) && t < |s.th|
  {
    var T := s.th[t];
    assert LocalShape(s, T);
    && (Unlinked(T.pc) ==> 0 <= T.node < |s.nodes| && s.nodes[T.node].owner == t && s.nodes[T.node].home == -1)
    && (HasTail(T.pc) ==> Snap(s, T.b, T.tail, s.tail[T.b]))
    && (T.pc == PutCheck || T.pc == PutLink || T.pc == PutHelp ==> NextSnap(s, T.b, T.tail, T.next))
    && (T.pc == PutLink ==> T.next.ptr == NULL)
    && (T.pc == PutHelp ==> T.next.ptr != NULL)
    && (T.pc == PutSwing ==> T.tail.tag + 1 < |s.order[T.b]| && s.order[T.b][T.tail.tag + 1] == T.node)
  }

  ghost predicate GetOk(s: State, t: nat)
    requires Shape(s) && t < |s.th|
  {
    var T := s.th[t];
    assert LocalShape(s, T);
    && (HasHead(T.pc) ==> Snap(s, T.b, T.head, s.head[T.b]))
    && (HasHead(T.pc) && T.pc != GetTail && s.head[T.b] == T.head ==> T.head.tag <= T.tail.tag)
    && (T.pc == GetCheck || T.pc == GetHelp || T.pc == GetTake ==> NextSnap(s, T.b, T.head, T.next))
    && (T.pc == GetCheck && s.head[T.b] == T.head && T.head.tag < T.tail.tag ==> T.next.ptr != NULL)
    && (T.pc == GetHelp ==> T.next.ptr != NULL && T.head.ptr == T.tail.ptr)
    && (T.pc == GetTake ==> T.next.ptr != NULL && (s.head[T.b] == T.head ==> T.head.tag < T.tail.tag))
  }

  /** The tag collected from a backend is not ahead of its head; so while the tail keeps that tag, the backend is empty. */
  ghost predicate Collected(s: State, T: Thread, j: nat)
    requires j < |s.head| && j < |T.tails|
  {
    T.tails[j] <= s.head[j].tag
  }

  /** A backend whose turn is still to come in the second pass has moved its tail. */
  ghost predicate Moved(s: State, T: Thread, k: nat)
    requires |s.head| == |s.tail| == |T.tails| > T.start
  {
    T.i <= k < |s.head| && s.tail[Index(T.start, k, |s.head|)].tag > T.tails[Index(T.start, k, |s.head|)]
  }

  ghost predicate PassOk(s: State, t: nat)
    requires Shape(s) && t < |s.th|
  {
    var T := s.th[t];
    var n := |s.head|;
    assert LocalShape(s, T);
    && (T.pc != Idle ==> T.began <= s.clock)
    && (InGet(T.pc) ==> T.op.Get? && T.b == Index(T.start, T.i, n))
    && (InGet(T.pc) && T.pc != Recheck ==> forall k :: 0 <= k < T.i ==> Collected(s, T, Index(T.start, k, n)))
    && (T.pc == Recheck ==>
          && (forall j :: 0 <= j < n ==> Collected(s, T, j))
          && (s.lastEmpty >= T.began || exists k :: Moved(s, T, k)))
    && (T.pc == Return(false) ==> T.op.Get? && s.lastEmpty >= T.began)
  }

  ghost predicate ThreadOk(s: State, t: nat)
    requires Shape(s) && t < |s.th|
  {
    PutOk(s, t) && GetOk(s, t) && PassOk(s, t)
  }

  ghost predicate Inv(s: State) {
    && Shape(s) && s.lastEmpty <= s.clock
    && (forall b {:trigger BackOk(s, b)} :: 0 <= b < |s.head| ==> BackOk(s, b))
    && (forall n {:trigger FreeOk(s, n)} :: 0 <= n < |s.nodes| ==> FreeOk(s, n))
    && (forall t {:trigger ThreadOk(s, t)} :: 0 <= t < |s.th| ==> ThreadOk(s, t))
  }

  // ---------------------------------------------------------------- what a step of thread t may do to the others

  ghost predicate BackKept(s: State, s': State, b: nat)
    requires Shape(s) && Shape(s') && |s'.head| == |s.head| && b < |s.head|
  {
    && |s.order[b]| <= |s'.order[b]| && (forall k :: 0 <= k < |s.order[b]| ==> s'.order[b][k] == s.order[b][k])
    && (s'.head[b] == s.head[b] || s'.head[b].tag > s.head[b].tag)
    && (s'.tail[b] == s.tail[b] || s'.tail[b].tag > s.tail[b].tag)
  }

  ghost predicate Evolves(s: State, s': State, t: nat) {
    && Shape(s) && Shape(s') && |s'.head| == |s.head| && t < |s.th| == |s'.th|
    && (forall u :: 0 <= u < |s.th| && u != t ==> s'.th[u] == s.th[u])
    && (forall b {:trigger BackKept(s, s', b)} :: 0 <= b < |s.head| ==> BackKept(s, s', b))
    && |s.nodes| <= |s'.nodes| && s.clock <= s'.clock && s.lastEmpty <= s'.lastEmpty
    && (forall n :: 0 <= n < |s.nodes| ==> s'.nodes[n].owner == s.nodes[n].owner && s'.nodes[n].item == s.nodes[n].item
                                           && (s.nodes[n].home == -1 && s.nodes[n].owner != t ==> s'.nodes[n].home == -1))
  }

  lemma OtherPut(s: State, s': State, t: nat, u: nat)
    requires Inv(s) && Evolves(s, s', t) && u < |s.th| && u != t
    ensures PutOk(s', u)
  {
    assert ThreadOk(s, u) && LocalShape(s, s.th[u]) && BackKept(s, s', s.th[u].b);
  }

  lemma OtherGet(s: State, s': State, t: nat, u: nat)
    requires Inv(s) && Evolves(s, s', t) && u < |s.th| && u != t
    ensures GetOk(s', u)
  {
    assert ThreadOk(s, u) && LocalShape(s, s.th[u]) && BackKept(s, s', s.th[u].b);
  }

  lemma OtherPass(s: State, s': State, t: nat, u: nat)
    requires Inv(s) && Evolves(s, s', t) && u < |s.th| && u != t
    ensures PassOk(s', u)
  {
    assert ThreadOk(s, u) && LocalShape(s, s.th[u]);
    var T := s.th[u];
    var n := |s.head|;
    if InGet(T.pc) {
      forall j | 0 <= j < n && Collected(s, T, j) ensures Collected(s', T, j) { assert BackKept(s, s', j); }
    }
    if T.pc == Recheck && exists k :: Moved(s, T, k) {
      var k :| Moved(s, T, k);
      assert BackKept(s, s', Index(T.start, k, n));
      assert Moved(s', T, k);
    }
  }

  lemma OtherThread(s: State, s': State, t: nat, u: nat)
    requires Inv(s) && Evolves(s, s', t) && u < |s.th| && u != t
    ensures ThreadOk(s', u)
  {
    OtherPut(s, s', t, u);
    OtherGet(s, s', t, u);
    OtherPass(s, s', t, u);
  }
}
