/** FCDeque.hpp as a machine: requests are published while a combiner that holds the lock scans and serves them. */
module FCMachine {
  import opened DequeSpec

  const EMPTY: int
  const MAX_COMBINING_ROUNDS := 10

  datatype Status = RIGHT_PUSH | LEFT_PUSH | RIGHT_POP | LEFT_POP | COMPLETE

  datatype Request = Request(value: int, status: Status)

  /** One pc per atomic access; `k` indexes the list of poppers, `i` the requests. */
  datatype PC =
    | Idle | SetValue | SetStatus | Wait | CheckLock | TryLock | Answer
    | Scan(i: nat) | Apply(S: Side, i: nat) | Complete(i: nat)
    | Serve(S: Side, k: nat) | Store(S: Side, k: nat, v: int) | Done(S: Side, k: nat)
    | Unlock

  /** `round` and `finished` are j and finished of `doCombining`; `left` and `right` its lists of poppers. */
  datatype Thread = Thread(op: Op, pc: PC, round: nat, finished: bool, left: seq<nat>, right: seq<nat>)

  /**
   * History: `log` lists the operations in the order the combiners applied them, `calls` the finished calls;
   * `answer` holds the log entry of a thread's current call, `half` the thread whose request is applied but not COMPLETE.
   */
  datatype State = State(deque: seq<int>, lock: int, req: seq<Request>, th: seq<Thread>,
                         log: seq<Call>, calls: seq<Call>, answer: seq<Option<Call>>, half: int)

  function StatusOf(op: Op): Status {
    match op
    case Push(LeftSide, _) => LEFT_PUSH
    case Push(RightSide, _) => RIGHT_PUSH
    case Pop(LeftSide) => LEFT_POP
    case Pop(RightSide) => RIGHT_POP
  }

  /** One operation on the sequential deque. */
  function Served(q: seq<int>, op: Op): (seq<int>, Option<int>) {
    match op
    case Push(S, v) => (Add(S, q, v), None)
    case Pop(S) =>
      if q == [] then (q, Some(EMPTY))
      else if S == LeftSide then (q[1..], Some(q[0]))
      else (q[..|q| - 1], Some(q[|q| - 1]))
  }

  predicate Combining(p: PC) { p.Scan? || p.Apply? || p.Complete? || p.Serve? || p.Store? || p.Done? || p.Unlock? }

  function Poppers(T: Thread, S: Side): seq<nat> { if S == LeftSide then T.left else T.right }

  /** After request i: the next one, or stage two. */
  function NextScan(T: Thread, i: nat, n: nat): Thread { T.(pc := if i + 1 < n then Scan(i + 1) else Serve(LeftSide, 0)) }

  /** After the last popper of a side: the other side, another round, or the end of `doCombining`. */
  function NextStage(T: Thread, S: Side): Thread {
    if S == LeftSide then T.(pc := Serve(RightSide, 0))
    else if T.round + 1 < MAX_COMBINING_ROUNDS && !T.finished then T.(round := T.round + 1, pc := Scan(0))
    else T.(pc := Unlock)
  }

  ghost predicate Shape(s: State) { |s.req| == |s.th| == |s.answer| }

  function With(s: State, t: nat, T: Thread): State
    requires t < |s.th|
  {
    s.(th := s.th[t := T])
  }

  function SetReq(s: State, u: nat, r: Request): State { if u < |s.req| then s.(req := s.req[u := r]) else s }

  /** The combiner applies the operation of thread u to the deque. */
  function Performed(s: State, u: nat, op: Op): State {
    var r := Served(s.deque, op);
    var c := Call(u, op, r.1);
    if u < |s.answer| then s.(deque := r.0, log := s.log + [c], answer := s.answer[u := Some(c)], half := u) else s
  }

  function ScanStep(s: State, t: nat, i: nat): State
    requires t < |s.th| && i < |s.req|
  {
    var n := |s.th|;
    var T := s.th[t].(finished := s.th[t].finished || i == t);
    match s.req[i].status
    case LEFT_PUSH => With(s, t, T.(pc := Apply(LeftSide, i)))
    case RIGHT_PUSH => With(s, t, T.(pc := Apply(RightSide, i)))
    case LEFT_POP => With(s, t, NextScan(T.(left := T.left + [i]), i, n))
    case RIGHT_POP => With(s, t, NextScan(T.(right := T.right + [i]), i, n))
    case COMPLETE => With(s, t, NextScan(T, i, n))
  }

  function ServeStep(s: State, t: nat, S: Side, k: nat): State
    requires t < |s.th|
  {
    var T := s.th[t];
    var us := Poppers(T, S);
    if k < |us| then
      var v := Served(s.deque, Pop(S)).1;
      With(Performed(s, us[k], Pop(S)), t, T.(pc := Store(S, k, if v.Some? then v.value else EMPTY)))
    else With(s, t, NextStage(T, S))
  }

  /** `op` is the operation that a new call invokes. */
  function Step(s: State, t: nat, op: Op): (s': State)
    requires Shape(s) && t < |s.th|
    ensures Shape(s') && |s'.th| == |s.th|
  {
    var T := s.th[t];
    var n := |s.th|;
    match T.pc
    case Idle => With(s, t, T.(op := op, pc := if op.Push? then SetValue else SetStatus))
    case SetValue => With(SetReq(s, t, s.req[t].(value := if T.op.Push? then T.op.value else 0)), t, T.(pc := SetStatus))
    case SetStatus => With(SetReq(s, t, s.req[t].(status := StatusOf(T.op))), t, T.(pc := Wait))
    case Wait => With(s, t, T.(pc := if s.req[t].status == COMPLETE then Answer else CheckLock))
    case CheckLock => With(s, t, T.(pc := if s.lock == 0 then TryLock else Wait))
    case TryLock =>
      if s.lock == 0 then With(s.(lock := 1), t, T.(pc := Scan(0), round := 0, finished := false, left := [], right := []))
      else With(s.(lock := 1), t, T.(pc := Wait))
    case Answer =>
      var c := Call(t, T.op, if T.op.Push? then None else Some(s.req[t].value));
      With(s.(calls := s.calls + [c], answer := s.answer[t := None]), t, T.(pc := Idle))
    case Scan(i) => if i < n then ScanStep(s, t, i) else s
    case Apply(S, i) => if i < n then With(Performed(s, i, Push(S, s.req[i].value)), t, T.(pc := Complete(i))) else s
    case Complete(i) =>
      if i < n then With(SetReq(s, i, s.req[i].(status := COMPLETE)).(half := -1), t, NextScan(T, i, n)) else s
    case Serve(S, k) => ServeStep(s, t, S, k)
    case Store(S, k, v) =>
      var us := Poppers(T, S);
      if k < |us| && us[k] < n then With(SetReq(s, us[k], s.req[us[k]].(value := v)), t, T.(pc := Done(S, k))) else s
    case Done(S, k) =>
      var us := Poppers(T, S);
      if k < |us| && us[k] < n
      then With(SetReq(s, us[k], s.req[us[k]].(status := COMPLETE)).(half := -1), t, T.(pc := Serve(S, k + 1)))
      else s
    case Unlock => With(s.(lock := 0), t, T.(pc := Wait))
  }

  ghost predicate Init(s: State) {
    && Shape(s) && s.deque == [] && s.lock == 0 && s.log == [] && s.calls == [] && s.half == -1
    && (forall t :: 0 <= t < |s.th| ==> s.th[t].pc == Idle && s.req[t].status == COMPLETE && s.answer[t] == None)
  }
}
