/** Wait-freedom: an enqueue ends within a number of its own thread's steps that depends on the number of threads only. */
module WFFree {
  import opened WFMachine
  import opened WFInv
  import opened WFSteps
  import opened WFQueue
  import opened WFHelps
  import opened WFWaits

  // ---------------------------------------------------------------- one turn of the help loop concerns one enqueue

  /** The enqueue that index T.i is at now has a later phase than this thread helps. */
  ghost predicate Beyond(s: State, T: Thread)
    requires Shape(s) && T.i < |s.th|
  {
    DescOf(s, T.i).phase > T.phase
  }

  /** The thread with index T.i is still in the call of node n, or its next call begins after T's node was published. */
  ghost predicate OneCall(s: State, T: Thread, n: int)
    requires Shape(s) && T.i < |s.th|
  {
    var O := s.th[T.i];
    Beyond(s, T) || (DescOf(s, T.i).node == n && (BeforePublish(O.pc) && O.pc != Idle ==> O.start > T.node))
  }

  /** A call that begins after T's node was published has a later phase. */
  lemma LaterPhase(s: State, t: nat, u: nat)
    requires Inv(s) && Calls(s) && t < |s.th| && u < |s.th| && u != t && !BeforePublish(s.th[t].pc) && s.th[u].pc == Publish
    requires s.th[u].start > s.th[t].node || DescOf(s, u).phase > s.th[t].phase
    ensures s.th[u].phase > s.th[t].phase
  {
    assert OwnOk(s, t, s.th[t]) by { assert ThreadOk(s, t); }
    assert Knowing(s, u, t) && Knowing(s, u, u);
    if DescOf(s, u).node > 0 { assert Began(s, DescOf(s, u).node) && DescOk(s, u); } else { assert DescOk(s, u); }
  }

  lemma OtherCall(s: State, u: nat, item: int, t: nat, n: int)
    requires Inv(s) && History(s) && Calls(s) && t < |s.th| && u < |s.th| && u != t && !BeforePublish(s.th[t].pc)
    requires s.th[t].i < |s.th| && OneCall(s, s.th[t], n)
    ensures var s' := Step(s, u, item); Shape(s') && |s'.th| == |s.th| && s'.th[t] == s.th[t] && OneCall(s', s.th[t], n)
  {
    var T := s.th[t];
    assert Running(s, T.node);
    DescStep(s, u, item, T.i);
    StepFrame(s, u, item);
    StartStep(s, u, item);
    if s.th[u].pc == Publish && T.i == u { LaterPhase(s, t, u); }
  }

  lemma OtherBeyond(s: State, u: nat, item: int, t: nat)
    requires Inv(s) && Calls(s) && t < |s.th| && u < |s.th| && u != t && !BeforePublish(s.th[t].pc)
    requires s.th[t].i < |s.th| && Beyond(s, s.th[t])
    ensures var s' := Step(s, u, item); Shape(s') && |s'.th| == |s.th| && Beyond(s', s.th[t])
  {
    DescStep(s, u, item, s.th[t].i);
    if s.th[u].pc == Publish && s.th[t].i == u { LaterPhase(s, t, u); }
  }

  lemma OwnCall(s: State, t: nat, item: int, n: int)
    requires Inv(s) && t < |s.th| && !BeforePublish(s.th[t].pc) && s.th[t].i < |s.th| && OneCall(s, s.th[t], n)
    requires var T, T' := s.th[t], Step(s, t, item).th[t]; T'.i == T.i && T'.phase == T.phase && T'.node == T.node && !BeforePublish(T'.pc)
    ensures var s' := Step(s, t, item); Shape(s') && |s'.th| == |s.th| && OneCall(s', s'.th[t], n)
  {
    DescStep(s, t, item, s.th[t].i);
    StepFrame(s, t, item);
  }

  // ---------------------------------------------------------------- the passes of one turn

  /** The most passes of the loop of `help_enqueue` for one enqueue. */
  function Passes(n: nat): nat { 6 * n + 4 }

  /** q passes were made in this turn: all for one enqueue, apart from a last one that ends at once. */
  ghost predicate TurnOk(s: State, T: Thread, w: Watch, q: nat)
    requires Shape(s)
  {
    && (T.pc == Pend1 || InPass(T) ==>
          && T.i < |s.th|
          && ((T.pc == Phase1 && Beyond(s, T) && q <= Passes(|s.th|) + 1)
              || (if w.target == NULL then T.pc == Pend1 && q == 0 else q == w.passes && OneCall(s, T, w.target))))
    && (InPass(T) || (InFinish(T.pc) && T.ret == ToHelp) ==> q > 0)
    && (InFinish(T.pc) && T.ret == ToHelp ==> q <= Passes(|s.th|))
  }

  /** The passes of the turn after a step of the thread. */
  ghost function Turned(s: State, t: nat, q: nat): nat
    requires Shape(s) && t < |s.th|
  {
    var T := s.th[t];
    assert LocalShape(s, T);
    if T.pc == Help then 0 else if T.pc == Pend1 && DescOf(s, T.i).pending then q + 1 else q
  }

  lemma Enough(s: State, T: Thread, w: Watch, q: nat)
    requires Shape(s) && TurnOk(s, T, w, q) && WatchOk(s, T, w) && (T.pc == Pend1 || InPass(T))
    ensures q <= Passes(|s.th|) + (if T.pc == Phase1 && Beyond(s, T) then 1 else 0)
  {
  }

  lemma TurnBegins(s: State, t: nat, w: Watch, q: nat)
    requires Inv(s) && t < |s.th| && s.th[t].pc == Pend1 && s.th[t].i < |s.th| && DescOf(s, s.th[t].i).pending
    requires TurnOk(s, s.th[t], w, q) && WatchOk(s, s.th[t], w)
    ensures TurnOk(s, s.th[t].(pc := Phase1), Watched(s, t, w), q + 1)
  {
    var T := s.th[t];
    Enough(s, T, w, q);
    assert DescOk(s, T.i);
    assert OwnOk(s, T.i, s.th[T.i]) by { assert ThreadOk(s, T.i); }
  }

  // Where a step leads, seen from the loop of `help_enqueue`.

  ghost predicate Leads(s: State, T: Thread, T': Thread)
    requires Shape(s)
  {
    && (T'.pc == Pend1 || InPass(T') ==>
          InPass(T) && T'.i == T.i < |s.th| && T'.phase == T.phase && T'.node == T.node && (T.pc == Phase1 ==> !Beyond(s, T)))
    && (InFinish(T'.pc) && T'.ret == ToHelp ==> T.pc == Link || (InFinish(T.pc) && T.ret == ToHelp))
  }

  lemma LinkLeads(s: State, t: nat)
    requires Shape(s) && t < |s.th| && InHelp(s.th[t].pc) && !Seeks(s.th[t].pc)
    ensures Leads(s, s.th[t], LinkStep(s, t))
  {
    assert LocalShape(s, s.th[t]);
  }

  lemma ReturnLeads(s: State, T: Thread)
    requires Shape(s) && LocalShape(s, T) && InFinish(T.pc)
    ensures Leads(s, T, FinReturn(T, |s.th|))
  {
  }

  lemma FinishLeads(s: State, t: nat)
    requires Shape(s) && t < |s.th| && InFinish(s.th[t].pc)
    ensures Leads(s, s.th[t], FinishStep(s, t))
  {
    var T := s.th[t];
    assert LocalShape(s, T);
    ReturnLeads(s, T);
  }

  lemma LateLeads(s: State, t: nat, item: int)
    requires Shape(s) && t < |s.th| && InFinish(s.th[t].pc)
    ensures Leads(s, s.th[t], Step(s, t, item).th[t])
  {
    assert LocalShape(s, s.th[t]);
    FinishLeads(s, t);
    ReturnLeads(s, s.th[t]);
    FinishThread(s, t, item);
  }

  lemma PhaseLeads(s: State, t: nat)
    requires Shape(s) && t < |s.th| && s.th[t].pc == Phase1
    ensures Leads(s, s.th[t], SeekStep(s, t))
  {
    assert LocalShape(s, s.th[t]);
  }

  lemma StepLeads(s: State, t: nat, item: int)
    requires Shape(s) && t < |s.th| && !BeforePublish(s.th[t].pc) && s.th[t].pc != Help && s.th[t].pc != Pend1
    ensures Leads(s, s.th[t], Step(s, t, item).th[t])
  {
    var T := s.th[t];
    assert LocalShape(s, T);
    if T.pc == Phase1 {
      PhaseLeads(s, t);
      assert Step(s, t, item) == Move(s, t, SeekStep(s, t));
    } else if InHelp(T.pc) {
      LinkLeads(s, t);
      if T.pc != Link || s.nodes[T.tail.ptr].next != T.next { assert Step(s, t, item) == Move(s, t, LinkStep(s, t)); }
    } else {
      LateLeads(s, t, item);
    }
  }

  /** The turn kept by the step of the thread itself. */
  ghost predicate Turns(s: State, t: nat, item: int, w: Watch, q: nat)
    requires Shape(s) && t < |s.th|
  {
    var s' := Step(s, t, item); Shape(s') && t < |s'.th| && TurnOk(s', s'.th[t], Watched(s, t, w), Turned(s, t, q))
  }

  lemma EarlyTurn(s: State, t: nat, item: int, w: Watch, q: nat)
    requires Inv(s) && t < |s.th| && BeforePublish(s.th[t].pc)
    ensures Turns(s, t, item, w, q)
  {
    StepInv(s, t, item);
    OutsideEarly(s, t, item);
    if s.th[t].pc != Publish {
      CallLocals(s, t, item);
      assert Step(s, t, item) == Move(s, t, CallStep(s, t, item));
    }
  }

  lemma SeekTurn(s: State, t: nat, item: int, w: Watch, q: nat)
    requires Inv(s) && t < |s.th| && (s.th[t].pc == Help || s.th[t].pc == Pend1) && TurnOk(s, s.th[t], w, q) && WatchOk(s, s.th[t], w)
    ensures Turns(s, t, item, w, q)
  {
    var T, T' := s.th[t], SeekStep(s, t);
    StepInv(s, t, item);
    assert LocalShape(s, T);
    assert Step(s, t, item) == Move(s, t, T');
    if T.pc == Pend1 && DescOf(s, T.i).pending {
      TurnBegins(s, t, w, q);
      MoveTurn(s, t, T', Watched(s, t, w), q + 1);
    }
  }

  lemma MoveTurn(s: State, t: nat, T': Thread, w: Watch, q: nat)
    requires Shape(s) && t < |s.th| && s.th[t].pc == Pend1 && T' == s.th[t].(pc := Phase1) && Shape(Move(s, t, T')) && TurnOk(s, T', w, q)
    ensures TurnOk(Move(s, t, T'), T', w, q)
  {
  }

  lemma PassTurn(s: State, t: nat, item: int, w: Watch, q: nat)
    requires Inv(s) && t < |s.th| && !BeforePublish(s.th[t].pc) && s.th[t].pc != Help && s.th[t].pc != Pend1
    requires TurnOk(s, s.th[t], w, q) && WatchOk(s, s.th[t], w)
    ensures Turns(s, t, item, w, q)
  {
    StepInv(s, t, item);
    StepLeads(s, t, item);
    if InPass(s.th[t]) { Enough(s, s.th[t], w, q); }
    PassCall(s, t, item, w, q);
    SameTarget(s, t, w, q);
    TurnGoesOn(s, Step(s, t, item), s.th[t], Step(s, t, item).th[t], w, Watched(s, t, w), q);
  }

  lemma PassCall(s: State, t: nat, item: int, w: Watch, q: nat)
    requires Inv(s) && t < |s.th| && !BeforePublish(s.th[t].pc) && TurnOk(s, s.th[t], w, q)
    requires Leads(s, s.th[t], Step(s, t, item).th[t])
    ensures var s' := Step(s, t, item);
            Shape(s') && |s'.th| == |s.th| && (s'.th[t].pc == Pend1 || InPass(s'.th[t]) ==> OneCall(s', s'.th[t], w.target))
  {
    var T' := Step(s, t, item).th[t];
    StepInv(s, t, item);
    if T'.pc == Pend1 || InPass(T') { OwnCall(s, t, item, w.target); }
  }

  lemma SameTarget(s: State, t: nat, w: Watch, q: nat)
    requires Shape(s) && t < |s.th| && s.th[t].pc != Help && s.th[t].pc != Pend1
    ensures Watched(s, t, w).target == w.target && Watched(s, t, w).passes == w.passes && Turned(s, t, q) == q
  {
  }

  lemma TurnGoesOn(s: State, z: State, T: Thread, T': Thread, w: Watch, w': Watch, q: nat)
    requires Shape(s) && Shape(z) && |z.th| == |s.th| && T.pc != Pend1 && TurnOk(s, T, w, q) && Leads(s, T, T')
    requires w'.target == w.target && w'.passes == w.passes && (T.pc == Link ==> q <= Passes(|s.th|))
    requires T'.pc == Pend1 || InPass(T') ==> OneCall(z, T', w.target)
    ensures TurnOk(z, T', w', q)
  {
  }

  lemma OwnTurn(s: State, t: nat, item: int, w: Watch, q: nat)
    requires Inv(s) && t < |s.th| && TurnOk(s, s.th[t], w, q) && WatchOk(s, s.th[t], w)
    ensures Turns(s, t, item, w, q)
  {
    if BeforePublish(s.th[t].pc) { EarlyTurn(s, t, item, w, q); }
    else if s.th[t].pc == Help || s.th[t].pc == Pend1 { SeekTurn(s, t, item, w, q); }
    else { PassTurn(s, t, item, w, q); }
  }

  lemma OtherTurn(s: State, u: nat, item: int, t: nat, w: Watch, q: nat)
    requires Inv(s) && History(s) && Calls(s) && t < |s.th| && u < |s.th| && u != t && TurnOk(s, s.th[t], w, q)
    ensures var s' := Step(s, u, item); Shape(s') && |s'.th| == |s.th| && s'.th[t] == s.th[t] && TurnOk(s', s.th[t], w, q)
  {
    var T := s.th[t];
    StepInv(s, u, item);
    StepFrame(s, u, item);
    if T.pc == Pend1 || InPass(T) {
      if T.pc == Phase1 && Beyond(s, T) { OtherBeyond(s, u, item, t); }
      else if w.target != NULL { OtherCall(s, u, item, t, w.target); }
    }
    TurnStays(s, Step(s, u, item), T, w, q);
  }

  lemma TurnStays(s: State, z: State, T: Thread, w: Watch, q: nat)
    requires Shape(s) && Shape(z) && |z.th| == |s.th| && TurnOk(s, T, w, q)
    requires T.pc == Pend1 || InPass(T) ==>
               if T.pc == Phase1 && Beyond(s, T) then Beyond(z, T) else w.target != NULL ==> OneCall(z, T, w.target)
    ensures TurnOk(z, T, w, q)
  {
  }

  // ---------------------------------------------------------------- the steps of one call

  /** The most steps of one turn of the help loop. */
  function Turn(n: nat): nat { 17 * Passes(n) + 3 }

  /** The most steps of a call before turn i. */
  function Before(i: nat, n: nat): nat { if i == 0 then n + 3 else Before(i - 1, n) + Turn(n) }

  /** The most steps that a pass has made. */
  function Place(p: PC): nat {
    match p
    case Phase1 => 1
    case ReadTail => 2
    case ReadNext => 3
    case CheckTail => 4
    case Pend2 => 5
    case Phase2 => 6
    case ReadNode => 7
    case Link => 8
    case FinTail => 9
    case FinNext => 10
    case FinCur => 11
    case FinCheck => 12
    case FinNode => 13
    case FinPhase => 14
    case FinState => 15
    case FinMove => 16
    case _ => 0
  }

  /** The most steps that the call has made, of n threads and with q passes in this turn. */
  function Most(n: nat, T: Thread, q: nat): int {
    match T.pc
    case Idle => 0
    case MaxPhase => 1 + T.i
    case ReadAba => n + 1
    case Publish => n + 2
    case Help => Before(T.i, n)
    case Pend1 => Before(T.i, n) + 1 + 17 * q
    case _ => if InFinish(T.pc) && T.ret == ToReturn then Before(n, n) + Place(T.pc) else Before(T.i, n) + 1 + 17 * (q - 1) + Place(T.pc)
  }

  /** Within the most: a step that ends the call ends the count. */
  predicate Within(n: nat, T': Thread, q: nat, c: nat) { T'.pc == Idle || c <= Most(n, T', q) }

  lemma NextWithin(T: Thread, n: nat, q: nat, c: nat)
    requires T.i < n && c <= Before(T.i, n) + Turn(n)
    ensures Within(n, NextHelp(T, n), q, c)
  {
    assert Before(T.i + 1, n) == Before(T.i, n) + Turn(n);
  }

  lemma CallWithin(s: State, t: nat, item: int, q: nat, c: nat)
    requires Shape(s) && t < |s.th| && BeforePublish(s.th[t].pc) && s.th[t].pc != Publish && c <= Most(|s.th|, s.th[t], q)
    ensures Within(|s.th|, CallStep(s, t, item), q, c + 1)
  {
    assert LocalShape(s, s.th[t]);
  }

  lemma SeekWithin(s: State, t: nat, w: Watch, q: nat, c: nat)
    requires Shape(s) && t < |s.th| && Seeks(s.th[t].pc) && TurnOk(s, s.th[t], w, q) && WatchOk(s, s.th[t], w) && c <= Most(|s.th|, s.th[t], q)
    ensures Within(|s.th|, SeekStep(s, t), Turned(s, t, q), c + 1)
  {
    var T := s.th[t];
    assert LocalShape(s, T);
    if T.pc != Help { Enough(s, T, w, q); }
    if c + 1 <= Before(T.i, |s.th|) + Turn(|s.th|) { NextWithin(T, |s.th|, Turned(s, t, q), c + 1); }
  }

  lemma LinkWithin(s: State, t: nat, q: nat, c: nat)
    requires Shape(s) && t < |s.th| && InHelp(s.th[t].pc) && !Seeks(s.th[t].pc) && c <= Most(|s.th|, s.th[t], q)
    ensures Within(|s.th|, LinkStep(s, t), q, c + 1)
  {
    assert LocalShape(s, s.th[t]);
  }

  lemma ReturnWithin(T: Thread, n: nat, q: nat, c: nat)
    requires InFinish(T.pc) && (T.ret != ToReturn ==> T.i < n && q > 0) && (T.ret == ToHelp ==> q <= Passes(n)) && c <= Most(n, T, q)
    ensures Within(n, FinReturn(T, n), q, c + 1)
  {
    if T.ret == ToHelp { NextWithin(T, n, q, c + 1); }
  }

  lemma FinishWithin(s: State, t: nat, q: nat, c: nat)
    requires Shape(s) && t < |s.th| && InFinish(s.th[t].pc) && (s.th[t].ret != ToReturn ==> q > 0) && (s.th[t].ret == ToHelp ==> q <= Passes(|s.th|))
    requires c <= Most(|s.th|, s.th[t], q)
    ensures Within(|s.th|, FinishStep(s, t), q, c + 1) && Within(|s.th|, FinReturn(s.th[t], |s.th|), q, c + 1)
  {
    var T := s.th[t];
    assert LocalShape(s, T);
    ReturnWithin(T, |s.th|, q, c);
    if T.pc == FinNext { ReturnWithin(T.(next := s.nodes[T.tail.ptr].next), |s.th|, q, c); }
  }

  lemma StepWithin(s: State, t: nat, item: int, w: Watch, q: nat, c: nat)
    requires Inv(s) && t < |s.th| && TurnOk(s, s.th[t], w, q) && WatchOk(s, s.th[t], w) && c <= Most(|s.th|, s.th[t], q)
    ensures Within(|s.th|, Step(s, t, item).th[t], Turned(s, t, q), c + 1)
  {
    var T := s.th[t];
    assert LocalShape(s, T);
    if T.pc == Publish {
    } else if BeforePublish(T.pc) {
      CallWithin(s, t, item, q, c);
      assert Step(s, t, item) == Move(s, t, CallStep(s, t, item));
    } else if Seeks(T.pc) {
      SeekWithin(s, t, w, q, c);
      assert Step(s, t, item) == Move(s, t, SeekStep(s, t));
    } else if InHelp(T.pc) {
      LinkWithin(s, t, q, c);
      if !Links(s, t) { assert Step(s, t, item) == Move(s, t, LinkStep(s, t)); }
    } else {
      FinishWithin(s, t, q, c);
      FinishThread(s, t, item);
    }
  }

  // ---------------------------------------------------------------- every run

  /** The passes that thread t has made in its present turn of the help loop. */
  ghost function TurnOf(s: State, run: seq<Sched>, t: nat): nat {
    if run == [] then 0
    else
      var p, x, q := Exec(s, run[..|run| - 1]), run[|run| - 1], TurnOf(s, run[..|run| - 1], t);
      if x.tid == t && Shape(p) && t < |p.th| then Turned(p, t, q) else q
  }

  /** The steps that thread t has made in its present call. */
  ghost function Steps(s: State, run: seq<Sched>, t: nat): nat {
    if run == [] then 0
    else
      var z, x, c := Exec(s, run), run[|run| - 1], Steps(s, run[..|run| - 1], t);
      if x.tid != t || t >= |z.th| then c else if z.th[t].pc == Idle then 0 else c + 1
  }

  lemma {:induction false} RunWithin(s: State, run: seq<Sched>, t: nat)
    requires Init(s) && t < |s.th|
    ensures var z, q := Exec(s, run), TurnOf(s, run, t);
            Inv(z) && |z.th| == |s.th| && TurnOk(z, z.th[t], WatchOf(s, run, t), q) && Steps(s, run, t) <= Most(|s.th|, z.th[t], q)
    decreases |run|
  {
    RunCalls(s, run);
    if run != [] {
      var p, x := run[..|run| - 1], run[|run| - 1];
      RunWithin(s, p, t);
      RunCalls(s, p);
      RunWatch(s, p, t);
      if x.tid < |s.th| {
        var y, w, q := Exec(s, p), WatchOf(s, p, t), TurnOf(s, p, t);
        if x.tid == t {
          OwnTurn(y, t, x.item, w, q);
          StepWithin(y, t, x.item, w, q, Steps(s, p, t));
        } else {
          OtherTurn(y, x.tid, x.item, t, w, q);
        }
      }
    }
  }

  lemma {:induction false} Total(i: nat, n: nat)
    ensures Before(i, n) == n + 3 + i * Turn(n)
  {
    if i > 0 {
      Total(i - 1, n);
      assert i * Turn(n) == (i - 1) * Turn(n) + Turn(n);
    }
  }

  lemma MostOfAll(s: State, T: Thread, w: Watch, q: nat)
    requires Shape(s) && TurnOk(s, T, w, q) && WatchOk(s, T, w) && LocalShape(s, T)
    ensures var n := |s.th|; Most(n, T, q) <= Before(n, n) + 16
  {
    var n := |s.th|;
    if !(InFinish(T.pc) && T.ret == ToReturn) && T.pc != Idle {
      if T.pc == Pend1 || InPass(T) { Enough(s, T, w, q); }
      if T.i < n { Rising(T.i, n, n); }
    }
  }

  lemma {:induction false} Rising(i: nat, k: nat, n: nat)
    requires i < k
    ensures Before(i, n) + Turn(n) <= Before(k, n)
    decreases k
  {
    if i < k - 1 { Rising(i, k - 1, n); }
  }

  lemma Closed(n: nat)
    ensures Before(n, n) + 16 == 102 * n * n + 72 * n + 19
  {
    Total(n, n);
    assert Turn(n) == 102 * n + 71;
  }

  /**
   * Wait-freedom, in every run: a thread makes at most 102 n^2 + 72 n + 19 steps in one call of enqueue, n being the number of
   * threads, however the others run. When it has made as many, its next step ends the call.
   */
  lemma WaitFree(s: State, run: seq<Sched>, t: nat)
    requires Init(s) && t < |s.th|
    ensures var n := |s.th|; Steps(s, run, t) <= 102 * n * n + 72 * n + 19
  {
    var z, n := Exec(s, run), |s.th|;
    RunWithin(s, run, t);
    RunWatch(s, run, t);
    assert LocalShape(z, z.th[t]);
    MostOfAll(z, z.th[t], WatchOf(s, run, t), TurnOf(s, run, t));
    Closed(n);
  }
}
