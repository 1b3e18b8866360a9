/** What every step of the enqueue machine keeps. */
module WFInv {
  import opened WFMachine

  ghost predicate Linked(s: State, n: int) { n in s.order }

  /** The tail has reached the node, or moved beyond it. */
  ghost predicate Passed(s: State, n: int) { exists k :: 0 <= k <= s.tail.aba && k < |s.order| && s.order[k] == n }

  // ---------------------------------------------------------------- the list

  ghost predicate NodeAt(s: State, k: nat)
    requires k < |s.order|
  {
    && 0 <= s.order[k] < |s.nodes|
    && s.nodes[s.order[k]].next == if k + 1 < |s.order| then Word(s.order[k + 1], 1) else Word(NULL, 0)
  }

  /** The linked nodes form one list without repetition, and the tail names its last node or the one before. */
  ghost predicate ListOk(s: State) {
    && |s.order| > 0 && s.order[0] == 0
    && (forall k {:trigger NodeAt(s, k)} :: 0 <= k < |s.order| ==> NodeAt(s, k))
    && (forall j, k :: 0 <= j < k < |s.order| ==> s.order[j] != s.order[k])
    && |s.order| - 2 <= s.tail.aba <= |s.order| - 1
    && s.tail.ptr == s.order[s.tail.aba]
  }

  /** A node that is not linked belongs to the pending enqueue of its owner. */
  ghost predicate FreeOk(s: State, n: nat)
    requires n < |s.nodes| && Shape(s)
  {
    Linked(s, n) || (n > 0 && s.nodes[n].next == Word(NULL, 0) && DescOf(s, s.nodes[n].owner) == Desc(DescOf(s, s.nodes[n].owner).phase, true, n))
  }

  // ---------------------------------------------------------------- descriptors

  ghost predicate DescOk(s: State, t: nat)
    requires Shape(s) && t < |s.th|
  {
    var d := DescOf(s, t);
    && (d.node == NULL || (0 < d.node < |s.nodes| && s.nodes[d.node].owner == t))
    && (!d.pending ==> d.node == NULL || Linked(s, d.node))
    && (d.pending ==> d.node != NULL && !Passed(s, d.node))
  }

  // ---------------------------------------------------------------- threads

  // What a thread with locals T knows; T are those of thread t, or those it is about to have.

  /** Before it publishes, a thread has no pending descriptor and the tail has passed its last node; then the node is its own. */
  ghost predicate OwnOk(s: State, t: nat, T: Thread)
    requires Shape(s) && t < |s.th|
  {
    var d := DescOf(s, t);
    if BeforePublish(T.pc) then !d.pending && (d.node == NULL || Passed(s, d.node))
    else d.node == T.node && d.phase == T.phase && T.node != NULL
  }

  predicate SelfDone(T: Thread, t: nat) {
    || (InHelp(T.pc) && T.i > t)
    || (InFinish(T.pc) && (T.ret == ToReturn || (T.ret == ToHelp && T.i >= t) || (T.ret == ToLoop && T.i > t)))
  }

  /** After the help loop has passed the thread's own index, its node is linked. */
  ghost predicate HelpedSelf(s: State, t: nat, T: Thread) { SelfDone(T, t) ==> Linked(s, T.node) }

  ghost predicate TailSnap(s: State, T: Thread) {
    HasTail(T.pc) ==> T.tail.aba <= s.tail.aba && T.tail.aba < |s.order| && s.order[T.tail.aba] == T.tail.ptr
                      && (T.tail.aba == s.tail.aba ==> T.tail == s.tail)
  }

  ghost predicate NextSnap(s: State, T: Thread) {
    HasNext(T.pc) ==> T.tail.aba + 1 < |s.order| && T.next == Word(s.order[T.tail.aba + 1], 1)
  }

  /** The node this thread read as the last one still is. */
  ghost predicate StillLast(s: State, T: Thread) {
    0 <= T.tail.ptr < |s.nodes| && s.nodes[T.tail.ptr].next.ptr == NULL
  }

  /** While no node is linked behind the tail that was read, the descriptor seen pending stays, and its node is not linked. */
  ghost predicate LinkFacts(s: State, T: Thread)
    requires Shape(s)
  {
    && (T.pc == Pend2 || T.pc == Phase2 || T.pc == ReadNode || T.pc == Link ==> T.next.ptr == NULL)
    && (StillLast(s, T) && (T.pc == Phase2 || T.pc == ReadNode || T.pc == Link) && T.i < |s.th| ==> DescOf(s, T.i).pending)
    && (StillLast(s, T) && T.pc == Link && T.i < |s.th| ==> T.toLink == DescOf(s, T.i).node)
  }

  /** If the descriptor has changed since `help_finish_enqueue` read it, the node's enqueue is no longer pending. */
  ghost predicate FinishFacts(s: State, T: Thread)
    requires Shape(s) && LocalShape(s, T)
  {
    HasNext(T.pc) && T.pc != FinCur ==>
      var u := s.nodes[T.next.ptr].owner;
      && 0 <= T.cur.ptr < |s.descs|
      && (s.state[u] != T.cur ==> DescOf(s, u) != Desc(DescOf(s, u).phase, true, T.next.ptr))
      && (s.state[u] == T.cur && (T.pc == FinPhase || T.pc == FinState) ==> DescOf(s, u).node == T.next.ptr)
      && (s.state[u] == T.cur && T.pc == FinState ==> DescOf(s, u).phase == T.curPhase)
      && (T.pc == FinMove ==> DescOf(s, u) != Desc(DescOf(s, u).phase, true, T.next.ptr))
  }

  /** In the call that ends an enqueue, either the tail has passed the own node or it is where this thread saw it. */
  ghost predicate LastFinish(s: State, T: Thread) {
    InFinish(T.pc) && T.ret == ToReturn && T.pc != FinTail && T.tail != s.tail ==> Passed(s, T.node)
  }

  ghost predicate Knows(s: State, t: nat, T: Thread)
    requires Shape(s) && t < |s.th| && LocalShape(s, T)
  {
    && OwnOk(s, t, T) && HelpedSelf(s, t, T) && TailSnap(s, T) && NextSnap(s, T)
    && LinkFacts(s, T) && FinishFacts(s, T) && LastFinish(s, T)
  }

  ghost predicate ThreadOk(s: State, t: nat)
    requires Shape(s) && t < |s.th|
  {
    assert LocalShape(s, s.th[t]);
    Knows(s, t, s.th[t])
  }

  ghost predicate Inv(s: State) {
    && Shape(s) && ListOk(s)
    && (forall n {:trigger FreeOk(s, n)} :: 0 <= n < |s.nodes| ==> FreeOk(s, n))
    && (forall t {:trigger DescOk(s, t)} :: 0 <= t < |s.th| ==> DescOk(s, t))
    && (forall t {:trigger ThreadOk(s, t)} :: 0 <= t < |s.th| ==> ThreadOk(s, t))
  }
}
