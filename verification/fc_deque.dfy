/** Flat combining in FCDeque.hpp is linearizable: every request is applied exactly once, between its publication and COMPLETE. */
module FCDeque {
  import opened DequeSpec
  import opened FCMachine

  // ---------------------------------------------------------------- the sequential run of the log

  function After(log: seq<Call>): seq<int> {
    if log == [] then [] else Served(After(log[..|log| - 1]), log[|log| - 1].op).0
  }

  /** Each entry of the log carries the answer the sequential deque gives at its place. */
  ghost predicate Serial(log: seq<Call>) {
    forall k :: 0 <= k < |log| ==> log[k].result == Served(After(log[..k]), log[k].op).1
  }

  function Of(cs: seq<Call>, t: nat): seq<Call> {
    if cs == [] then [] else Of(cs[..|cs| - 1], t) + (if cs[|cs| - 1].tid == t then [cs[|cs| - 1]] else [])
  }

  function Waiting(a: Option<Call>): seq<Call> { if a.Some? then [a.value] else [] }

  /** Call c takes a plain deque from q to q': by its effect, or, for a pop that finds nothing, by none and with the answer EMPTY. */
  ghost predicate Applies(q: seq<int>, c: Call, q': seq<int>) {
    match c.op
    case Push(S, v) => c.result == None && Effect(q, q', [Pushed(c.tid, S, v)])
    case Pop(S) => c.result.Some? && if q == [] then q' == [] && c.result.value == EMPTY else Effect(q, q', [Popped(c.tid, S, c.result.value)])
  }

  /** The calls, in this order, take an empty deque through the contents qs. */
  ghost predicate Sequential(log: seq<Call>, qs: seq<seq<int>>) {
    |qs| == |log| + 1 && qs[0] == [] && forall k :: 0 <= k < |log| ==> Applies(qs[k], log[k], qs[k + 1])
  }

  lemma ServedApplies(q: seq<int>, t: nat, op: Op)
    ensures Applies(q, Call(t, op, Served(q, op).1), Served(q, op).0)
  {
    if op.Pop? && q != [] {
      if op.side == LeftSide { assert q == [q[0]] + q[1..]; } else { assert q == q[..|q| - 1] + [q[|q| - 1]]; }
    }
  }

  /** The contents before and after each entry of the log. */
  function Contents(log: seq<Call>): seq<seq<int>> { seq(|log| + 1, k requires 0 <= k <= |log| => After(log[..k])) }

  lemma SerialApplies(log: seq<Call>)
    requires Serial(log)
    ensures Sequential(log, Contents(log)) && Contents(log)[|log|] == After(log)
  {
    var qs := Contents(log);
    assert log[..|log|] == log;
    forall k | 0 <= k < |log| ensures Applies(qs[k], log[k], qs[k + 1]) {
      assert log[..k + 1][..k] == log[..k];
      ServedApplies(qs[k], log[k].tid, log[k].op);
    }
  }

  // ---------------------------------------------------------------- invariant

  /** The call has been published and not answered yet. */
  predicate Published(p: PC) { p == Wait || p == CheckLock || p == TryLock || Combining(p) }

  ghost predicate Answered(s: State, u: nat)
    requires Shape(s) && u < |s.th|
  {
    var T := s.th[u];
    s.answer[u] == Some(Call(u, T.op, if T.op.Push? then None else Some(s.req[u].value)))
  }

  ghost predicate ReqOk(s: State, u: nat)
    requires Shape(s) && u < |s.th|
  {
    var T := s.th[u];
    && (T.pc == SetValue ==> T.op.Push?)
    && (T.pc == SetStatus && T.op.Push? ==> s.req[u].value == T.op.value)
    && (T.pc == Idle || T.pc == SetValue || T.pc == SetStatus ==> s.req[u].status == COMPLETE && s.answer[u] == None)
    && (T.pc == Answer ==> s.req[u].status == COMPLETE)
    && (T.pc == Answer || (Published(T.pc) && s.req[u].status == COMPLETE) ==> Answered(s, u))
    && (s.req[u].status != COMPLETE ==> Published(T.pc) && s.req[u].status == StatusOf(T.op) && (s.answer[u] == None <==> s.half != u)
                                        && (T.op.Push? ==> s.req[u].value == T.op.value))
    && (s.half == u ==> s.req[u].status != COMPLETE)
  }

  /** The poppers still to be served: each published, none applied. */
  ghost predicate Popper(s: State, S: Side, u: nat)
    requires Shape(s)
  {
    u < |s.th| && s.req[u].status == StatusOf(Pop(S)) && s.answer[u] == None
  }

  ghost predicate Rising(us: seq<nat>, below: nat) {
    && (forall j :: 0 <= j < |us| ==> us[j] < below)
    && (forall j, k :: 0 <= j < k < |us| ==> us[j] < us[k])
  }

  /** A list of poppers in the order of their requests, served up to `from`. */
  ghost predicate ListOk(s: State, S: Side, us: seq<nat>, below: nat, from: nat)
    requires Shape(s)
  {
    Rising(us, below) && forall j {:trigger us[j]} :: from <= j < |us| ==> Popper(s, S, us[j])
  }

  ghost predicate ListsOk(s: State, T: Thread, below: nat, fromLeft: nat, fromRight: nat)
    requires Shape(s)
  {
    ListOk(s, LeftSide, T.left, below, fromLeft) && ListOk(s, RightSide, T.right, below, fromRight)
  }

  // While side S is served up to k, the left poppers from FromLeft on and the right ones from FromRight on are waiting.
  function FromLeft(T: Thread, S: Side, k: nat): nat { if S == LeftSide then k else |T.left| }
  function FromRight(S: Side, k: nat): nat { if S == LeftSide then 0 else k }

  /** The combiner's own request, once the scan has passed it: done, or on a list to be served. */
  ghost predicate SelfOk(s: State, c: nat, fromLeft: nat, fromRight: nat)
    requires Shape(s) && c < |s.th|
  {
    var T := s.th[c];
    || s.req[c].status == COMPLETE
    || (exists j :: fromLeft <= j < |T.left| && T.left[j] == c)
    || (exists j :: fromRight <= j < |T.right| && T.right[j] == c)
  }

  ghost predicate CombOk(s: State, c: nat)
    requires Shape(s) && c < |s.th|
  {
    var T := s.th[c];
    var n := |s.th|;
    (Combining(T.pc) ==> T.round == 0) &&
    match T.pc
    case Scan(i) =>
      i < n && s.half == -1 && (T.finished <==> i > c) && ListsOk(s, T, i, 0, 0) && (i > c ==> SelfOk(s, c, 0, 0))
    case Apply(S, i) =>
      i < n && s.half == -1 && (T.finished <==> i >= c) && ListsOk(s, T, i, 0, 0) && (i > c ==> SelfOk(s, c, 0, 0))
      && s.req[i].status == StatusOf(Push(S, 0))
    case Complete(i) =>
      i < n && s.half == i && (T.finished <==> i >= c) && ListsOk(s, T, i, 0, 0) && (i > c ==> SelfOk(s, c, 0, 0))
      && s.th[i].op.Push? && s.answer[i] == Some(Call(i, s.th[i].op, None))
    case Serve(S, k) =>
      s.half == -1 && T.finished && k <= |Poppers(T, S)|
      && ListsOk(s, T, n, FromLeft(T, S, k), FromRight(S, k))
      && SelfOk(s, c, FromLeft(T, S, k), FromRight(S, k))
    case Store(S, k, v) =>
      HalfServed(s, c, S, k) && s.answer[Poppers(T, S)[k]] == Some(Call(Poppers(T, S)[k], Pop(S), Some(v)))
    case Done(S, k) =>
      HalfServed(s, c, S, k)
      && s.answer[Poppers(T, S)[k]] == Some(Call(Poppers(T, S)[k], Pop(S), Some(s.req[Poppers(T, S)[k]].value)))
    case Unlock => s.half == -1 && s.req[c].status == COMPLETE
    case _ => true
  }

  /** Popper k of side S has been served but is not COMPLETE yet. */
  ghost predicate HalfServed(s: State, c: nat, S: Side, k: nat)
    requires Shape(s) && c < |s.th|
  {
    var T := s.th[c];
    var us := Poppers(T, S);
    && T.finished && k < |us| && us[k] < |s.th| && s.half == us[k] && s.th[us[k]].op == Pop(S)
    && ListsOk(s, T, |s.th|, FromLeft(T, S, k + 1), FromRight(S, k + 1))
    && (us[k] == c || SelfOk(s, c, FromLeft(T, S, k + 1), FromRight(S, k + 1)))
  }

  ghost predicate LockOk(s: State) {
    && (forall t :: 0 <= t < |s.th| && Combining(s.th[t].pc) ==> s.lock != 0)
    && (forall t, u :: 0 <= t < |s.th| && 0 <= u < |s.th| && Combining(s.th[t].pc) && Combining(s.th[u].pc) ==> t == u)
    && (s.lock == 0 ==> s.half == -1)
  }

  ghost predicate LogOk(s: State)
    requires Shape(s)
  {
    && After(s.log) == s.deque && Serial(s.log)
    && (forall t {:trigger Of(s.log, t)} :: 0 <= t < |s.th| ==> Of(s.log, t) == Of(s.calls, t) + Waiting(s.answer[t]))
  }

  ghost predicate Inv(s: State) {
    && Shape(s) && LockOk(s) && LogOk(s)
    && (forall u {:trigger ReqOk(s, u)} :: 0 <= u < |s.th| ==> ReqOk(s, u))
    && (forall c {:trigger CombOk(s, c)} :: 0 <= c < |s.th| ==> CombOk(s, c))
  }

  // ---------------------------------------------------------------- the log

  lemma OfAdd(cs: seq<Call>, c: Call, t: nat)
    ensures Of(cs + [c], t) == Of(cs, t) + (if c.tid == t then [c] else [])
  {
    assert (cs + [c])[..|cs + [c]| - 1] == cs;
  }

  /** A further entry with the answer of the sequential deque at its place. */
  lemma SerialMore(log: seq<Call>, c: Call)
    requires Serial(log) && c.result == Served(After(log), c.op).1
    ensures Serial(log + [c]) && After(log + [c]) == Served(After(log), c.op).0
  {
    var log' := log + [c];
    assert log'[..|log|] == log;
    forall k | 0 <= k < |log'| ensures log'[k].result == Served(After(log'[..k]), log'[k].op).1 {
      if k < |log| { assert log'[..k] == log[..k]; }
    }
  }

  /** Applying a waiting operation extends the sequential run by its answer. */
  lemma PerformLog(s: State, u: nat, op: Op)
    requires Shape(s) && LogOk(s) && u < |s.th| && s.answer[u] == None
    ensures LogOk(Performed(s, u, op))
  {
    var c := Call(u, op, Served(s.deque, op).1);
    var s' := Performed(s, u, op);
    SerialMore(s.log, c);
    forall t {:trigger Of(s'.log, t)} | 0 <= t < |s'.th| ensures Of(s'.log, t) == Of(s'.calls, t) + Waiting(s'.answer[t]) {
      OfAdd(s.log, c, t);
      assert Of(s.log, t) == Of(s.calls, t) + Waiting(s.answer[t]);
    }
  }

  lemma AnswerLog(s: State, t: nat)
    requires Inv(s) && t < |s.th| && s.th[t].pc == Answer
    ensures forall op {:trigger Step(s, t, op)} :: LogOk(Step(s, t, op))
  {
    assert ReqOk(s, t);
    var T := s.th[t];
    var c := Call(t, T.op, if T.op.Push? then None else Some(s.req[t].value));
    forall op {:trigger Step(s, t, op)} ensures LogOk(Step(s, t, op)) {
      var s' := Step(s, t, op);
      forall u {:trigger Of(s'.log, u)} | 0 <= u < |s'.th| ensures Of(s'.log, u) == Of(s'.calls, u) + Waiting(s'.answer[u]) {
        OfAdd(s.calls, c, u);
        assert Of(s.log, u) == Of(s.calls, u) + Waiting(s.answer[u]);
      }
    }
  }

  lemma SameLog(s: State, s': State)
    requires Shape(s) && Shape(s') && LogOk(s) && |s'.th| == |s.th|
    requires s'.log == s.log && s'.deque == s.deque && s'.calls == s.calls && s'.answer == s.answer
    ensures LogOk(s')
  {
    forall u {:trigger Of(s'.log, u)} | 0 <= u < |s'.th| ensures Of(s'.log, u) == Of(s'.calls, u) + Waiting(s'.answer[u]) {
      assert Of(s.log, u) == Of(s.calls, u) + Waiting(s.answer[u]);
    }
  }

  // ---------------------------------------------------------------- steps outside the combiner

  /** A step of thread t that only touches its own request, and that only while the request is COMPLETE. */
  ghost predicate OwnOnly(s: State, s': State, t: nat) {
    && Shape(s) && Shape(s') && |s'.th| == |s.th| && t < |s.th| && s'.half == s.half
    && s'.th == s.th[t := s'.th[t]] && s'.req == s.req[t := s'.req[t]] && s'.answer == s.answer[t := s'.answer[t]]
    && (s.req[t].status != COMPLETE ==> s'.req[t] == s.req[t] && s'.answer[t] == s.answer[t] && s'.th[t].op == s.th[t].op)
  }

  lemma OtherReq(s: State, s': State, t: nat, u: nat)
    requires Inv(s) && OwnOnly(s, s', t) && u < |s.th| && u != t
    ensures ReqOk(s', u)
  {
    assert ReqOk(s, u);
  }

  lemma OtherList(s: State, s': State, t: nat, S: Side, us: seq<nat>, below: nat, from: nat)
    requires OwnOnly(s, s', t) && ListOk(s, S, us, below, from)
    ensures ListOk(s', S, us, below, from)
  {
    forall j {:trigger us[j]} | from <= j < |us| ensures Popper(s', S, us[j]) { assert Popper(s, S, us[j]); }
  }

  lemma OtherLists(s: State, s': State, t: nat, T: Thread, below: nat, l: nat, r: nat)
    requires OwnOnly(s, s', t) && ListsOk(s, T, below, l, r)
    ensures ListsOk(s', T, below, l, r)
  {
    OtherList(s, s', t, LeftSide, T.left, below, l);
    OtherList(s, s', t, RightSide, T.right, below, r);
  }

  lemma OtherComb(s: State, s': State, t: nat, c: nat)
    requires Inv(s) && OwnOnly(s, s', t) && c < |s.th| && c != t
    ensures CombOk(s', c)
  {
    assert CombOk(s, c);
    var T := s.th[c];
    match T.pc
    case Scan(i) => OtherLists(s, s', t, T, i, 0, 0);
    case Apply(S, i) => OtherLists(s, s', t, T, i, 0, 0);
    case Complete(i) =>
      OtherLists(s, s', t, T, i, 0, 0);
      assert ReqOk(s, i);
    case Serve(S, k) => OtherLists(s, s', t, T, |s.th|, FromLeft(T, S, k), FromRight(S, k));
    case Store(S, k, v) => OtherHalf(s, s', t, c, S, k);
    case Done(S, k) => OtherHalf(s, s', t, c, S, k);
    case _ =>
  }

  lemma OtherHalf(s: State, s': State, t: nat, c: nat, S: Side, k: nat)
    requires Inv(s) && OwnOnly(s, s', t) && c < |s.th| && c != t && HalfServed(s, c, S, k)
    ensures HalfServed(s', c, S, k)
    ensures var u := Poppers(s.th[c], S)[k]; s'.answer[u] == s.answer[u] && s'.req[u] == s.req[u]
  {
    var T := s.th[c];
    OtherLists(s, s', t, T, |s.th|, FromLeft(T, S, k + 1), FromRight(S, k + 1));
    assert ReqOk(s, Poppers(T, S)[k]);
  }

  lemma OutsideKeeps(s: State, t: nat, op: Op)
    requires Inv(s) && t < |s.th| && !Combining(s.th[t].pc)
    ensures Inv(Step(s, t, op))
  {
    var s' := Step(s, t, op);
    assert ReqOk(s, t) && CombOk(s, t);
    assert OwnOnly(s, s', t);
    if s.th[t].pc == Answer { AnswerLog(s, t); } else { SameLog(s, s'); }
    OutsideOwn(s, t, op);
    forall u {:trigger ReqOk(s', u)} | 0 <= u < |s'.th| ensures ReqOk(s', u) { if u != t { OtherReq(s, s', t, u); } }
    forall c {:trigger CombOk(s', c)} | 0 <= c < |s'.th| ensures CombOk(s', c) { if c != t { OtherComb(s, s', t, c); } }
  }

  lemma CallReq(s: State, t: nat, op: Op)
    requires Inv(s) && t < |s.th| && (s.th[t].pc == Idle || s.th[t].pc == SetValue || s.th[t].pc == SetStatus)
    ensures ReqOk(Step(s, t, op), t)
  {
    assert ReqOk(s, t);
  }

  lemma WaitReq(s: State, t: nat, op: Op)
    requires Inv(s) && t < |s.th| && (s.th[t].pc == Wait || s.th[t].pc == CheckLock || s.th[t].pc == TryLock || s.th[t].pc == Answer)
    ensures ReqOk(Step(s, t, op), t)
  {
    assert ReqOk(s, t);
  }

  lemma OutsideLock(s: State, t: nat, op: Op)
    requires Shape(s) && LockOk(s) && t < |s.th| && !Combining(s.th[t].pc)
    ensures LockOk(Step(s, t, op))
  {
    var s' := Step(s, t, op);
    assert forall u :: 0 <= u < |s.th| && u != t ==> s'.th[u] == s.th[u];
    assert Combining(s'.th[t].pc) ==> s.lock == 0;
  }

  lemma OutsideComb(s: State, t: nat, op: Op)
    requires Shape(s) && LockOk(s) && t < |s.th| && !Combining(s.th[t].pc)
    ensures CombOk(Step(s, t, op), t)
  {
  }

  lemma OutsideOwn(s: State, t: nat, op: Op)
    requires Inv(s) && t < |s.th| && !Combining(s.th[t].pc)
    ensures var s' := Step(s, t, op); ReqOk(s', t) && CombOk(s', t) && LockOk(s')
  {
    OutsideLock(s, t, op);
    OutsideComb(s, t, op);
    if s.th[t].pc == Idle || s.th[t].pc == SetValue || s.th[t].pc == SetStatus { CallReq(s, t, op); } else { WaitReq(s, t, op); }
  }

  // ---------------------------------------------------------------- steps of the combiner

  /** A step of the combiner c: no other thread moves, and all threads stay in their calls. */
  ghost predicate CombFrame(s: State, s': State, c: nat) {
    && c < |s.th| && Combining(s.th[c].pc) && Shape(s) && Shape(s') && |s'.th| == |s.th|
    && s'.th == s.th[c := s'.th[c]] && s'.th[c].op == s.th[c].op
    && ((s'.lock == s.lock && Combining(s'.th[c].pc)) || (s'.lock == 0 && s'.half == -1 && s'.th[c].pc == Wait))
  }

  ghost predicate CombStep(s: State, s': State, c: nat) { Inv(s) && CombFrame(s, s', c) }

  lemma Assemble(s: State, s': State, c: nat)
    requires CombStep(s, s', c) && CombOk(s', c) && LogOk(s')
    requires forall u {:trigger ReqOk(s', u)} :: 0 <= u < |s'.th| ==> ReqOk(s', u)
    ensures Inv(s')
  {
    forall u {:trigger CombOk(s', u)} | 0 <= u < |s'.th| ensures CombOk(s', u) {
      assert u != c ==> !Combining(s.th[u].pc);
    }
  }

  lemma SameReq(s: State, s': State, c: nat, u: nat)
    requires CombFrame(s, s', c) && u < |s.th| && ReqOk(s, u)
    requires s'.req[u] == s.req[u] && s'.answer[u] == s.answer[u] && (s'.half == u <==> s.half == u)
    ensures ReqOk(s', u)
  {
  }

  lemma SameReqs(s: State, s': State, c: nat)
    requires CombStep(s, s', c) && s'.req == s.req && s'.answer == s.answer && s'.half == s.half
    ensures forall u {:trigger ReqOk(s', u)} :: 0 <= u < |s'.th| ==> ReqOk(s', u)
  {
    forall u {:trigger ReqOk(s', u)} | 0 <= u < |s'.th| ensures ReqOk(s', u) {
      assert ReqOk(s, u);
      SameReq(s, s', c, u);
    }
  }

  lemma SelfGrows(s: State, s': State, c: nat, l: nat, r: nat)
    requires Shape(s) && Shape(s') && |s'.th| == |s.th| && c < |s.th| && SelfOk(s, c, l, r)
    requires s.req[c].status == COMPLETE ==> s'.req[c].status == COMPLETE
    requires s.th[c].left <= s'.th[c].left && s.th[c].right <= s'.th[c].right
    ensures SelfOk(s', c, l, r)
  {
    var T, T' := s.th[c], s'.th[c];
    if s.req[c].status != COMPLETE {
      if j :| l <= j < |T.left| && T.left[j] == c { assert T'.left[j] == c; }
      else { var k :| r <= k < |T.right| && T.right[k] == c; assert T'.right[k] == c; }
    }
  }

  lemma GrowList(s: State, s': State, S: Side, us: seq<nat>, i: nat)
    requires Shape(s) && Shape(s') && s'.req == s.req && s'.answer == s.answer && |s'.th| == |s.th| && ListOk(s, S, us, i, 0)
    ensures ListOk(s', S, us, i, 0) && ListOk(s', S, us, i + 1, 0)
    ensures Popper(s, S, i) ==> ListOk(s', S, us + [i], i + 1, 0)
  {
    forall j {:trigger us[j]} | 0 <= j < |us| ensures Popper(s', S, us[j]) { assert Popper(s, S, us[j]); }
  }

  /** The lists of a round hold the requests scanned so far that are pops, each once. */
  lemma ScanLists(s: State, c: nat, i: nat)
    requires Inv(s) && c < |s.th| && i < |s.th| && s.half == -1 && ListsOk(s, s.th[c], i, 0, 0)
    ensures var s' := ScanStep(s, c, i); ListsOk(s', s'.th[c], i + 1, 0, 0)
    ensures var s' := ScanStep(s, c, i); s'.th[c].pc.Apply? ==> ListsOk(s', s'.th[c], i, 0, 0)
  {
    assert ReqOk(s, i);
    var s' := ScanStep(s, c, i);
    GrowList(s, s', LeftSide, s.th[c].left, i);
    GrowList(s, s', RightSide, s.th[c].right, i);
  }

  /** The scan has passed the combiner's own request before. */
  lemma ScanPast(s: State, c: nat, i: nat)
    requires Shape(s) && c < i < |s.th| && SelfOk(s, c, 0, 0)
    ensures SelfOk(ScanStep(s, c, i), c, 0, 0)
  {
    SelfGrows(s, ScanStep(s, c, i), c, 0, 0);
  }

  /** The scan passes the combiner's own request, which is no push. */
  lemma ScanOwn(s: State, c: nat)
    requires Shape(s) && c < |s.th| && s.req[c].status != LEFT_PUSH && s.req[c].status != RIGHT_PUSH
    ensures SelfOk(ScanStep(s, c, c), c, 0, 0)
  {
    var s' := ScanStep(s, c, c);
    if s.req[c].status == LEFT_POP { assert s'.th[c].left[|s.th[c].left|] == c; }
    if s.req[c].status == RIGHT_POP { assert s'.th[c].right[|s.th[c].right|] == c; }
  }

  lemma ScanPush(s: State, c: nat, i: nat)
    requires Inv(s) && c < |s.th| && s.th[c].pc == Scan(i) && i < |s.th| && (s.req[i].status == LEFT_PUSH || s.req[i].status == RIGHT_PUSH)
    ensures CombOk(ScanStep(s, c, i), c)
  {
    assert CombOk(s, c);
    ScanLists(s, c, i);
    if i > c { ScanPast(s, c, i); }
  }

  lemma ScanNext(s: State, c: nat, i: nat)
    requires Inv(s) && c < |s.th| && s.th[c].pc == Scan(i) && i < |s.th| && s.req[i].status != LEFT_PUSH && s.req[i].status != RIGHT_PUSH
    ensures CombOk(ScanStep(s, c, i), c)
  {
    assert CombOk(s, c);
    ScanLists(s, c, i);
    if i > c { ScanPast(s, c, i); } else if i == c { ScanOwn(s, c); }
    NextOk(ScanStep(s, c, i), c, i);
  }

  /** The end of one scan, whatever it did. */
  ghost predicate Scanned(s: State, c: nat, i: nat)
    requires Shape(s) && c < |s.th|
  {
    var T := s.th[c];
    && i < |s.th| && s.half == -1 && T.round == 0 && (T.finished <==> i >= c)
    && ListsOk(s, T, i + 1, 0, 0) && (i >= c ==> SelfOk(s, c, 0, 0))
    && T.pc == if i + 1 < |s.th| then Scan(i + 1) else Serve(LeftSide, 0)
  }

  lemma NextOk(s: State, c: nat, i: nat)
    requires Shape(s) && c < |s.th| && Scanned(s, c, i)
    ensures CombOk(s, c)
  {
  }

  lemma ScanFrame(s: State, c: nat, i: nat)
    requires Shape(s) && c < |s.th| && s.th[c].pc == Scan(i) && i < |s.th|
    ensures CombFrame(s, ScanStep(s, c, i), c) && ScanStep(s, c, i) == s.(th := ScanStep(s, c, i).th)
  {
  }

  lemma ScanKeeps(s: State, c: nat, i: nat)
    requires Inv(s) && c < |s.th| && s.th[c].pc == Scan(i) && i < |s.th|
    ensures Inv(ScanStep(s, c, i))
  {
    var s' := ScanStep(s, c, i);
    ScanFrame(s, c, i);
    if s.req[i].status == LEFT_PUSH || s.req[i].status == RIGHT_PUSH { ScanPush(s, c, i); } else { ScanNext(s, c, i); }
    SameLog(s, s');
    SameReqs(s, s', c);
    Assemble(s, s', c);
  }

  /** A change to the request of thread x does not disturb a list it is not waiting on. */
  lemma ListFrame(s: State, s': State, S: Side, us: seq<nat>, below: nat, from: nat, below': nat, from': nat, x: nat)
    requires Shape(s) && Shape(s') && |s'.th| == |s.th| && ListOk(s, S, us, below, from) && below <= below' && from <= from'
    requires forall u :: 0 <= u < |s.th| && u != x ==> s'.req[u] == s.req[u] && s'.answer[u] == s.answer[u]
    requires forall j :: from' <= j < |us| ==> us[j] != x
    ensures ListOk(s', S, us, below', from')
  {
    forall j {:trigger us[j]} | from' <= j < |us| ensures Popper(s', S, us[j]) { assert Popper(s, S, us[j]); }
  }

  /** A request that is not a pop, or is applied already, waits on no list. */
  lemma NotListed(s: State, S: Side, us: seq<nat>, below: nat, from: nat, x: nat)
    requires Shape(s) && ListOk(s, S, us, below, from) && !Popper(s, S, x)
    ensures forall j :: from <= j < |us| ==> us[j] != x
  {
    forall j | from <= j < |us| ensures us[j] != x { assert Popper(s, S, us[j]); }
  }

  // Pushes.

  lemma ApplyLists(s: State, s': State, c: nat, i: nat, below: nat)
    requires Shape(s) && Shape(s') && |s'.th| == |s.th| && c < |s.th| && ListsOk(s, s.th[c], i, 0, 0) && i <= below
    requires forall u :: 0 <= u < |s.th| && u != i ==> s'.req[u] == s.req[u] && s'.answer[u] == s.answer[u]
    requires s'.th[c].left == s.th[c].left && s'.th[c].right == s.th[c].right
    ensures ListsOk(s', s'.th[c], below, 0, 0)
  {
    ListFrame(s, s', LeftSide, s.th[c].left, i, 0, below, 0, i);
    ListFrame(s, s', RightSide, s.th[c].right, i, 0, below, 0, i);
  }

  lemma ApplyKeeps(s: State, c: nat, S: Side, i: nat, op: Op)
    requires Inv(s) && c < |s.th| && s.th[c].pc == Apply(S, i) && i < |s.th|
    ensures Inv(Step(s, c, op))
  {
    var s' := Step(s, c, op);
    assert CombOk(s, c) && ReqOk(s, i);
    var s1 := Performed(s, i, Push(S, s.req[i].value));
    PerformLog(s, i, Push(S, s.req[i].value));
    SameLog(s1, s');
    ApplyComb(s, c, S, i, op);
    ApplyReq(s, c, S, i, op);
    Assemble(s, s', c);
  }

  lemma ApplyComb(s: State, c: nat, S: Side, i: nat, op: Op)
    requires Inv(s) && c < |s.th| && s.th[c].pc == Apply(S, i) && i < |s.th|
    ensures CombOk(Step(s, c, op), c)
  {
    var s' := Step(s, c, op);
    assert CombOk(s, c) && ReqOk(s, i);
    ApplyLists(s, s', c, i, i);
    if i > c { SelfGrows(s, s', c, 0, 0); }
  }

  lemma ApplyReq(s: State, c: nat, S: Side, i: nat, op: Op)
    requires Inv(s) && c < |s.th| && s.th[c].pc == Apply(S, i) && i < |s.th|
    ensures forall u {:trigger ReqOk(Step(s, c, op), u)} :: 0 <= u < |s.th| ==> ReqOk(Step(s, c, op), u)
  {
    var s' := Step(s, c, op);
    assert CombOk(s, c) && ReqOk(s, i);
    forall u {:trigger ReqOk(s', u)} | 0 <= u < |s'.th| ensures ReqOk(s', u) { if u != i { assert ReqOk(s, u); SameReq(s, s', c, u); } }
  }

  lemma CompleteKeeps(s: State, c: nat, i: nat, op: Op)
    requires Inv(s) && c < |s.th| && s.th[c].pc == Complete(i) && i < |s.th|
    ensures Inv(Step(s, c, op))
  {
    var s' := Step(s, c, op);
    assert CombOk(s, c) && ReqOk(s, i);
    SameLog(s, s');
    ApplyLists(s, s', c, i, i + 1);
    if i > c { SelfGrows(s, s', c, 0, 0); }
    NextOk(s', c, i);
    CompleteReq(s, c, i, op);
    Assemble(s, s', c);
  }

  lemma CompleteReq(s: State, c: nat, i: nat, op: Op)
    requires Inv(s) && c < |s.th| && s.th[c].pc == Complete(i) && i < |s.th|
    ensures forall u {:trigger ReqOk(Step(s, c, op), u)} :: 0 <= u < |s.th| ==> ReqOk(Step(s, c, op), u)
  {
    var s' := Step(s, c, op);
    assert CombOk(s, c) && ReqOk(s, i);
    forall u {:trigger ReqOk(s', u)} | 0 <= u < |s'.th| ensures ReqOk(s', u) { if u != i { assert ReqOk(s, u); SameReq(s, s', c, u); } }
  }

  // Pops.

  /** Popper k of a list is in its call with that pop, and waits on no other place. */
  lemma PopperAt(s: State, c: nat, S: Side, k: nat)
    requires Inv(s) && c < |s.th| && s.th[c].pc == Serve(S, k) && k < |Poppers(s.th[c], S)|
    ensures var u := Poppers(s.th[c], S)[k];
            && u < |s.th| && s.th[u].op == Pop(S) && s.answer[u] == None && s.req[u].status == StatusOf(Pop(S))
            && (forall j :: FromLeft(s.th[c], S, k + 1) <= j < |s.th[c].left| ==> s.th[c].left[j] != u)
            && (forall j :: FromRight(S, k + 1) <= j < |s.th[c].right| ==> s.th[c].right[j] != u)
  {
    assert CombOk(s, c);
    var T := s.th[c];
    var u := Poppers(T, S)[k];
    assert Popper(s, S, u);
    assert ReqOk(s, u);
    if S == LeftSide { NotListed(s, RightSide, T.right, |s.th|, 0, u); }
  }

  lemma ServeComb(s: State, c: nat, S: Side, k: nat)
    requires Inv(s) && c < |s.th| && s.th[c].pc == Serve(S, k) && k < |Poppers(s.th[c], S)|
    ensures CombOk(ServeStep(s, c, S, k), c)
  {
    var s' := ServeStep(s, c, S, k);
    var T := s.th[c];
    var u := Poppers(T, S)[k];
    assert CombOk(s, c);
    PopperAt(s, c, S, k);
    ListFrame(s, s', LeftSide, T.left, |s.th|, FromLeft(T, S, k), |s.th|, FromLeft(T, S, k + 1), u);
    ListFrame(s, s', RightSide, T.right, |s.th|, FromRight(S, k), |s.th|, FromRight(S, k + 1), u);
    if u != c { SelfNext(s, s', c, S, k); }
  }

  lemma ServeLog(s: State, c: nat, S: Side, k: nat)
    requires Inv(s) && c < |s.th| && s.th[c].pc == Serve(S, k) && k < |Poppers(s.th[c], S)|
    ensures LogOk(ServeStep(s, c, S, k))
  {
    PopperAt(s, c, S, k);
    var u := Poppers(s.th[c], S)[k];
    PerformLog(s, u, Pop(S));
    SameLog(Performed(s, u, Pop(S)), ServeStep(s, c, S, k));
  }

  lemma ServeKeeps(s: State, c: nat, S: Side, k: nat)
    requires Inv(s) && c < |s.th| && s.th[c].pc == Serve(S, k) && k < |Poppers(s.th[c], S)|
    ensures Inv(ServeStep(s, c, S, k))
    ensures var s', u := ServeStep(s, c, S, k), Poppers(s.th[c], S)[k];
            && s'.th[c].pc.Store? && s'.th[c].pc.S == S && s'.th[c].pc.k == k && Serves(s, s', u)
            && s'.log[|s.log|] == Call(u, Pop(S), Some(s'.th[c].pc.v))
  {
    PopperAt(s, c, S, k);
    assert ReqOk(s, Poppers(s.th[c], S)[k]);
    ServedApplies(s.deque, Poppers(s.th[c], S)[k], Pop(S));
    ServeComb(s, c, S, k);
    ServeLog(s, c, S, k);
    ServeReq(s, c, S, k);
    Assemble(s, ServeStep(s, c, S, k), c);
  }

  lemma SelfNext(s: State, s': State, c: nat, S: Side, k: nat)
    requires Shape(s) && Shape(s') && |s'.th| == |s.th| && c < |s.th| && k < |Poppers(s.th[c], S)| && Poppers(s.th[c], S)[k] != c
    requires SelfOk(s, c, FromLeft(s.th[c], S, k), FromRight(S, k)) && s'.req[c] == s.req[c]
    requires s'.th[c].left == s.th[c].left && s'.th[c].right == s.th[c].right
    ensures SelfOk(s', c, FromLeft(s.th[c], S, k + 1), FromRight(S, k + 1))
  {
  }

  lemma ServeReq(s: State, c: nat, S: Side, k: nat)
    requires Inv(s) && c < |s.th| && s.th[c].pc == Serve(S, k) && k < |Poppers(s.th[c], S)|
    ensures var s' := ServeStep(s, c, S, k); Shape(s') && forall u {:trigger ReqOk(s', u)} :: 0 <= u < |s.th| ==> ReqOk(s', u)
  {
    var s' := ServeStep(s, c, S, k);
    assert CombOk(s, c);
    PopperAt(s, c, S, k);
    var x := Poppers(s.th[c], S)[k];
    assert ReqOk(s, x);
    forall u {:trigger ReqOk(s', u)} | 0 <= u < |s'.th| ensures ReqOk(s', u) { if u != x { assert ReqOk(s, u); SameReq(s, s', c, u); } }
  }

  /** Between a popper's answer and its COMPLETE nothing else changes. */
  lemma HalfKeeps(s: State, s': State, c: nat, S: Side, k: nat)
    requires Inv(s) && c < |s.th| && HalfServed(s, c, S, k) && Shape(s') && |s'.th| == |s.th|
    requires forall u :: 0 <= u < |s.th| && u != Poppers(s.th[c], S)[k] ==> s'.req[u] == s.req[u]
    requires s'.answer == s.answer && s'.th[c].left == s.th[c].left && s'.th[c].right == s.th[c].right
    ensures ListsOk(s', s'.th[c], |s.th|, FromLeft(s.th[c], S, k + 1), FromRight(S, k + 1))
    ensures Poppers(s.th[c], S)[k] == c || SelfOk(s', c, FromLeft(s.th[c], S, k + 1), FromRight(S, k + 1))
  {
    var T := s.th[c];
    var u := Poppers(T, S)[k];
    assert ReqOk(s, u);
    NotListed(s, LeftSide, T.left, |s.th|, FromLeft(T, S, k + 1), u);
    NotListed(s, RightSide, T.right, |s.th|, FromRight(S, k + 1), u);
    ListFrame(s, s', LeftSide, T.left, |s.th|, FromLeft(T, S, k + 1), |s.th|, FromLeft(T, S, k + 1), u);
    ListFrame(s, s', RightSide, T.right, |s.th|, FromRight(S, k + 1), |s.th|, FromRight(S, k + 1), u);
    if u != c { SelfGrows(s, s', c, FromLeft(T, S, k + 1), FromRight(S, k + 1)); }
  }

  lemma StoreKeeps(s: State, c: nat, S: Side, k: nat, v: int, op: Op)
    requires Inv(s) && c < |s.th| && s.th[c].pc == Store(S, k, v)
    ensures Inv(Step(s, c, op))
  {
    var s' := Step(s, c, op);
    assert CombOk(s, c);
    var x := Poppers(s.th[c], S)[k];
    HalfKeeps(s, s', c, S, k);
    SameLog(s, s');
    assert ReqOk(s, x);
    forall u {:trigger ReqOk(s', u)} | 0 <= u < |s'.th| ensures ReqOk(s', u) { if u != x { assert ReqOk(s, u); SameReq(s, s', c, u); } }
    Assemble(s, s', c);
  }

  lemma DoneKeeps(s: State, c: nat, S: Side, k: nat, op: Op)
    requires Inv(s) && c < |s.th| && s.th[c].pc == Done(S, k)
    ensures Inv(Step(s, c, op))
  {
    var s' := Step(s, c, op);
    assert CombOk(s, c);
    var x := Poppers(s.th[c], S)[k];
    HalfKeeps(s, s', c, S, k);
    SameLog(s, s');
    assert ReqOk(s, x);
    forall u {:trigger ReqOk(s', u)} | 0 <= u < |s'.th| ensures ReqOk(s', u) { if u != x { assert ReqOk(s, u); SameReq(s, s', c, u); } }
    Assemble(s, s', c);
  }

  /** The end of a list, and the end of the only round. */
  lemma StageKeeps(s: State, c: nat, S: Side, k: nat)
    requires Inv(s) && c < |s.th| && s.th[c].pc == Serve(S, k) && k >= |Poppers(s.th[c], S)|
    ensures Inv(ServeStep(s, c, S, k))
  {
    var s' := ServeStep(s, c, S, k);
    var T := s.th[c];
    assert CombOk(s, c);
    SameLog(s, s');
    ListFrame(s, s', LeftSide, T.left, |s.th|, FromLeft(T, S, k), |s.th|, |T.left|, c);
    if S == LeftSide {
      SelfGrows(s, s', c, |T.left|, 0);
      GrowFrame(s, s', RightSide, T.right, |s.th|);
    }
    SameReqs(s, s', c);
    Assemble(s, s', c);
  }

  lemma GrowFrame(s: State, s': State, S: Side, us: seq<nat>, below: nat)
    requires Shape(s) && Shape(s') && s'.req == s.req && s'.answer == s.answer && |s'.th| == |s.th| && ListOk(s, S, us, below, 0)
    ensures ListOk(s', S, us, below, 0)
  {
    forall j {:trigger us[j]} | 0 <= j < |us| ensures Popper(s', S, us[j]) { assert Popper(s, S, us[j]); }
  }

  lemma UnlockKeeps(s: State, c: nat, op: Op)
    requires Inv(s) && c < |s.th| && s.th[c].pc == Unlock
    ensures Inv(Step(s, c, op))
  {
    var s' := Step(s, c, op);
    assert CombOk(s, c);
    SameLog(s, s');
    SameReqs(s, s', c);
    Assemble(s, s', c);
  }

  // ---------------------------------------------------------------- every step, every run

  lemma ScanInv(s: State, c: nat, i: nat, op: Op)
    requires Inv(s) && c < |s.th| && (s.th[c].pc == Scan(i) || s.th[c].pc == Complete(i))
    ensures Inv(Step(s, c, op))
  {
    assert CombOk(s, c);
    if s.th[c].pc == Scan(i) { ScanKeeps(s, c, i); } else { CompleteKeeps(s, c, i, op); }
  }

  lemma ServeInv(s: State, c: nat, S: Side, k: nat, op: Op)
    requires Inv(s) && c < |s.th| && s.th[c].pc == Serve(S, k)
    ensures Inv(Step(s, c, op))
  {
    if k < |Poppers(s.th[c], S)| { ServeKeeps(s, c, S, k); } else { StageKeeps(s, c, S, k); }
  }

  lemma StepInv(s: State, t: nat, op: Op)
    requires Inv(s) && t < |s.th|
    ensures Inv(Step(s, t, op))
  {
    match s.th[t].pc
    case Scan(i) => ScanInv(s, t, i, op);
    case Complete(i) => ScanInv(s, t, i, op);
    case Apply(S, i) =>
      assert CombOk(s, t);
      ApplyKeeps(s, t, S, i, op);
    case Serve(S, k) => ServeInv(s, t, S, k, op);
    case Store(S, k, v) => StoreKeeps(s, t, S, k, v, op);
    case Done(S, k) => DoneKeeps(s, t, S, k, op);
    case Unlock => UnlockKeeps(s, t, op);
    case _ => OutsideKeeps(s, t, op);
  }

  /** A step applies nothing, or the one operation that a published, unanswered call waits for. */
  lemma StepServes(s: State, t: nat, op: Op)
    requires Inv(s) && t < |s.th|
    ensures var s' := Step(s, t, op);
            (s'.log == s.log && s'.deque == s.deque) || exists u :: Serves(s, s', u)
  {
    match s.th[t].pc
    case Apply(S, i) => ApplyServes(s, t, S, i, op);
    case Serve(S, k) => if k < |Poppers(s.th[t], S)| { PopServes(s, t, S, k, op); }
    case _ => QuietStep(s, t, op);
  }

  lemma QuietStep(s: State, t: nat, op: Op)
    requires Shape(s) && t < |s.th| && !s.th[t].pc.Apply? && !s.th[t].pc.Serve?
    ensures Step(s, t, op).log == s.log && Step(s, t, op).deque == s.deque
  {
  }

  /** The step applies the operation of thread u, which is published and unanswered, with the answer that the log records. */
  ghost predicate Serves(s: State, s': State, u: nat)
    requires Shape(s)
  {
    && u < |s.th| && Published(s.th[u].pc) && s.req[u].status != COMPLETE && s.answer[u] == None
    && |s'.log| == |s.log| + 1 && s'.log[..|s.log|] == s.log
    && var c := s'.log[|s.log|]; c.tid == u && c.op == s.th[u].op && Applies(s.deque, c, s'.deque)
  }

  lemma ApplyServes(s: State, t: nat, S: Side, i: nat, op: Op)
    requires Inv(s) && t < |s.th| && s.th[t].pc == Apply(S, i)
    ensures Serves(s, Step(s, t, op), i)
  {
    assert CombOk(s, t) && ReqOk(s, i);
    ServedApplies(s.deque, i, Push(S, s.req[i].value));
  }

  lemma PopServes(s: State, t: nat, S: Side, k: nat, op: Op)
    requires Inv(s) && t < |s.th| && s.th[t].pc == Serve(S, k) && k < |Poppers(s.th[t], S)|
    ensures Serves(s, Step(s, t, op), Poppers(s.th[t], S)[k])
  {
    PopperAt(s, t, S, k);
    assert ReqOk(s, Poppers(s.th[t], S)[k]);
    ServedApplies(s.deque, Poppers(s.th[t], S)[k], Pop(S));
  }

  datatype Sched = Sched(tid: nat, op: Op)

  function Exec(s: State, run: seq<Sched>): (z: State)
    requires Shape(s)
    ensures Shape(z)
  {
    if run == [] then s
    else
      var p := Exec(s, run[..|run| - 1]);
      var x := run[|run| - 1];
      if x.tid < |p.th| then Step(p, x.tid, x.op) else p
  }

  lemma {:induction false} RunInv(s: State, run: seq<Sched>)
    requires Init(s)
    ensures Inv(Exec(s, run)) && |Exec(s, run).th| == |s.th|
    decreases |run|
  {
    if run == [] {
      forall u {:trigger ReqOk(s, u)} | 0 <= u < |s.th| ensures ReqOk(s, u) {}
      forall c {:trigger CombOk(s, c)} | 0 <= c < |s.th| ensures CombOk(s, c) {}
    } else {
      RunInv(s, run[..|run| - 1]);
      var x := run[|run| - 1];
      if x.tid < |s.th| { StepInv(Exec(s, run[..|run| - 1]), x.tid, x.op); }
    }
  }

  /**
   * Linearizability, in every run of any number of threads: the operations in the order the combiners applied them are a run
   * of a plain deque with those very answers, ending in the contents of `m_deque`; and the applied operations of each
   * thread are its finished calls, with the answers they returned, plus the current call once it has been applied.
   */
  lemma Linearizable(s: State, run: seq<Sched>) returns (qs: seq<seq<int>>)
    requires Init(s)
    ensures var z := Exec(s, run);
            && Sequential(z.log, qs) && qs[|z.log|] == z.deque
            && forall t :: 0 <= t < |z.th| ==> Of(z.log, t) == Of(z.calls, t) + Waiting(z.answer[t])
  {
    RunInv(s, run);
    SerialApplies(Exec(s, run).log);
    qs := Contents(Exec(s, run).log);
  }

  // ---------------------------------------------------------------- the calls are those that were invoked

  /** The operations that thread t has invoked: those given to its steps from Idle. */
  function Invoked(s: State, run: seq<Sched>, t: nat): seq<Op>
    requires Shape(s)
  {
    if run == [] then []
    else
      var p, x := Exec(s, run[..|run| - 1]), run[|run| - 1];
      Invoked(s, run[..|run| - 1], t) + (if x.tid == t && t < |p.th| && p.th[t].pc == Idle then [x.op] else [])
  }

  /** The operation of a call that has not returned. */
  function Now(T: Thread): seq<Op> { if T.pc == Idle then [] else [T.op] }

  /** A step of thread t may begin its call or finish it. */
  ghost predicate CallStep(s: State, s': State, t: nat, op: Op) {
    && t < |s.th| == |s'.th| && (forall u :: 0 <= u < |s.th| && u != t ==> s'.th[u] == s.th[u])
    && |s.calls| <= |s'.calls| && s'.calls[..|s.calls|] == s.calls
    && var new' := s'.calls[|s.calls|..];
       && (new' == [] || (|new'| == 1 && new'[0].tid == t))
       && (if new' == [] then [] else [new'[0].op]) + Now(s'.th[t]) == Now(s.th[t]) + (if s.th[t].pc == Idle then [op] else [])
  }

  lemma OutsideCalls(s: State, t: nat, op: Op)
    requires Shape(s) && t < |s.th| && !Combining(s.th[t].pc)
    ensures CallStep(s, Step(s, t, op), t, op)
  {
    assert Step(s, t, op).calls == s.calls || s.th[t].pc == Answer;
  }

  lemma CombCalls(s: State, t: nat, op: Op)
    requires Shape(s) && t < |s.th| && Combining(s.th[t].pc)
    ensures CallStep(s, Step(s, t, op), t, op)
  {
    var s' := Step(s, t, op);
    assert s'.calls == s.calls && s'.th == s.th[t := s'.th[t]];
    assert s'.th[t].op == s.th[t].op && s'.th[t].pc != Idle;
  }

  lemma StepCalls(s: State, t: nat, op: Op)
    requires Shape(s) && t < |s.th|
    ensures CallStep(s, Step(s, t, op), t, op)
  {
    if Combining(s.th[t].pc) { CombCalls(s, t, op); } else { OutsideCalls(s, t, op); }
  }

  lemma CallStepKeeps(s: State, s': State, t: nat, op: Op, u: nat, ops: seq<Op>)
    requires CallStep(s, s', t, op) && u < |s.th| && ops == OpsOf(s.calls, u) + Now(s.th[u])
    ensures ops + (if u == t && s.th[t].pc == Idle then [op] else []) == OpsOf(s'.calls, u) + Now(s'.th[u])
  {
    var new' := s'.calls[|s.calls|..];
    assert s'.calls == s.calls + new';
    StepInvoked(ops, s.calls, new', t, u, Now(s.th[u]), Now(s'.th[u]), if u == t && s.th[t].pc == Idle then [op] else []);
  }

  /**
   * The calls are those that were invoked: in every run, the operations of the finished calls of a thread, with that of its
   * running call, are in order those it invoked.
   */
  lemma {:induction false} CallsAsInvoked(s: State, run: seq<Sched>, t: nat)
    requires Init(s) && t < |s.th|
    ensures var z := Exec(s, run); t < |z.th| && Invoked(s, run, t) == OpsOf(z.calls, t) + Now(z.th[t])
    decreases |run|
  {
    RunInv(s, run);
    if run != [] {
      var r, x := run[..|run| - 1], run[|run| - 1];
      CallsAsInvoked(s, r, t);
      RunInv(s, r);
      if x.tid < |s.th| {
        var y := Exec(s, r);
        StepCalls(y, x.tid, x.op);
        CallStepKeeps(y, Exec(s, run), x.tid, x.op, t, Invoked(s, r, t));
      }
    }
  }

  /**
   * The round loop of `doCombining` runs exactly once, one thread combines at a time, and a combiner's own request is COMPLETE
   * when it unlocks. (The lists of poppers are not emptied between rounds, so a second round would serve them twice.)
   */
  lemma OneRound(s: State, run: seq<Sched>, c: nat)
    requires Init(s) && c < |s.th|
    ensures var z := Exec(s, run);
            && c < |z.th| && (Combining(z.th[c].pc) ==> z.th[c].round == 0 && forall u :: 0 <= u < |z.th| && Combining(z.th[u].pc) ==> u == c)
            && (z.th[c].pc == Unlock ==> z.req[c].status == COMPLETE && Answered(z, c))
  {
    RunInv(s, run);
    var z := Exec(s, run);
    assert CombOk(z, c) && ReqOk(z, c);
  }
}
