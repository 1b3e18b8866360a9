/**
 * OFDeque.hpp with its global hints and its real edge search: every oracle's answer is one that `findEdge` gives on the heap
 * of that instant, and every operation updates the hints as the source does before it goes on.
 */
module OFHints {
  import opened DequeSpec
  import opened OFHeap
  import opened OFMoves
  import opened OFMachine
  import opened OFInv
  import opened OFEdge
  import opened OFSearch
  import opened OFDeque

  /** The hint updates that a call still has to make: swing the hint of its side to a buffer, or `retire`. */
  datatype Debt = Nothing | Swing(buf: int) | RenewBoth | RenewRight

  datatype Hints = Hints(left: Hint, right: Hint)

  function Of(hs: Hints, S: Side): Hint { if S == LeftSide then hs.left else hs.right }

  function With(hs: Hints, S: Side, x: Hint): Hints { if S == LeftSide then hs.(left := x) else hs.(right := x) }

  /** `got` holds the hint each thread's last oracle call started from; `run` is the history of steps of the plain machine. */
  datatype World = World(z: State, run: seq<Sched>, hints: Hints, got: seq<Hint>, debts: seq<Debt>)

  /** A step of the plain machine, or a hint update; an updated hint of `retire` comes to lie on buffer `buf`. */
  datatype Move = Do(tid: nat, act: Act) | Pay(tid: nat, buf: int)

  /** The debt of a successful second swap. */
  ghost function Owed(h: Heap, T: Thread, a: Act): Debt {
    if !Live(h, T) then Nothing
    else match T.pc.kind
      case KAppend => if a.Attach? then Swing(a.d) else Nothing
      case KStraddle => Swing(T.far.word)
      case KPop => if T.i == FarValue(T.op.side) then Swing(T.b) else Nothing
      case KUnlink => RenewBoth
      case _ => Nothing
  }

  /** The oracle answers as `findEdge` does from the current hint. */
  ghost predicate Answers(h: Heap, T: Thread, hs: Hints, a: Act) {
    T.pc == Oracle ==> a.Aim? && Found(h.mem, T.op.side, Of(hs, T.op.side).buf, a.b, a.i)
  }

  ghost predicate May(w: World, m: Move) {
    && m.tid < |w.z.th| == |w.got| == |w.debts|
    && match m
       case Do(t, a) => w.debts[t] == Nothing && CanStep(w.z, t, a) && Answers(w.z.h, w.z.th[t], w.hints, a)
       case Pay(t, c) =>
         match w.debts[t]
         case Nothing => false
         case Swing(_) => true
         case RenewBoth => Active(w.z.h.mem, LeftSide, w.hints.left.buf, c)
         case RenewRight => Active(w.z.h.mem, RightSide, w.hints.right.buf, c)
  }

  function Renewed(hs: Hints, S: Side, c: int): Hints { With(hs, S, Hint(c, Of(hs, S).count + 1)) }

  /** The compare-and-swap of the hint that ends an operation across a border. */
  function Swung(hs: Hints, S: Side, got: Hint, b: int): Hints { if Of(hs, S) == got then With(hs, S, Hint(b, got.count + 1)) else hs }

  ghost function Next(w: World, m: Move): World
    requires m.tid < |w.z.th| == |w.got| == |w.debts|
  {
    match m
    case Do(t, a) =>
      var T := w.z.th[t];
      World(Step(w.z, t, a), w.run + [Sched(t, a)], w.hints,
            w.got[t := if T.pc == Oracle then Of(w.hints, T.op.side) else w.got[t]], w.debts[t := Owed(w.z.h, T, a)])
    case Pay(t, c) =>
      match w.debts[t]
      case Nothing => w
      case Swing(b) => w.(hints := Swung(w.hints, w.z.th[t].op.side, w.got[t], b), debts := w.debts[t := Nothing])
      case RenewBoth => w.(hints := Renewed(w.hints, LeftSide, c), debts := w.debts[t := RenewRight])
      case RenewRight => w.(hints := Renewed(w.hints, RightSide, c), debts := w.debts[t := Nothing])
  }

  /** Both hints start on the only buffer. */
  ghost function Start(s: State): World {
    var x := Hint(if 0 in s.h.at then s.h.at[0] else 0, 0);
    World(s, [], Hints(x, x), seq(|s.th|, _ => x), seq(|s.th|, _ => Nothing))
  }

  ghost function WorldOf(s: State, ms: seq<Move>): World {
    if ms == [] then Start(s)
    else
      var w := WorldOf(s, ms[..|ms| - 1]);
      var m := ms[|ms| - 1];
      if m.tid < |w.z.th| == |w.got| == |w.debts| then Next(w, m) else w
  }

  /** A run with hints. */
  ghost predicate Legal(s: State, ms: seq<Move>) {
    ms == [] || (Legal(s, ms[..|ms| - 1]) && May(WorldOf(s, ms[..|ms| - 1]), ms[|ms| - 1]))
  }

  lemma NextRun(s: State, w: World, m: Move)
    requires Run(s, w.run) && w.z == Exec(s, w.run) && May(w, m)
    ensures var w' := Next(w, m); Run(s, w'.run) && w'.z == Exec(s, w'.run) && |w'.z.th| == |w'.got| == |w'.debts| == |w.z.th|
  {
    if m.Do? {
      var run := w.run + [Sched(m.tid, m.act)];
      assert run[..|run| - 1] == w.run;
    }
  }

  /** Every run with hints is a run of the plain machine, so all results about those hold of it. */
  lemma {:induction false} LegalRun(s: State, ms: seq<Move>)
    requires Legal(s, ms)
    ensures var w := WorldOf(s, ms); Run(s, w.run) && w.z == Exec(s, w.run) && |w.z.th| == |w.got| == |w.debts| == |s.th|
    decreases |ms|
  {
    if ms != [] {
      LegalRun(s, ms[..|ms| - 1]);
      NextRun(s, WorldOf(s, ms[..|ms| - 1]), ms[|ms| - 1]);
    }
  }

  // ---------------------------------------------------------------- one thread moving alone

  ghost predicate Changes(T: Thread) { T.pc.Target? && T.pc.kind != KSeal && T.pc.kind != KUnlink }

  /** What a thread sees of the world: the heap, its locals, the hint it started from and its debt. */
  datatype View = View(h: Heap, T: Thread, got: Hint, debt: Debt)

  ghost function One(v: View, t: nat, clock: nat, hs: Hints, a: Act): View {
    var o := Micro(v.h, v.T, t, clock, a);
    View(o.h, o.T, if v.T.pc == Oracle then Of(hs, v.T.op.side) else v.got, Owed(v.h, v.T, a))
  }

  /** After these steps of thread t and no others. */
  ghost function Play(v: View, t: nat, clock: nat, hs: Hints, acts: seq<Act>): View
    decreases |acts|
  {
    if acts == [] then v else Play(One(v, t, clock, hs, acts[0]), t, clock + 1, hs, acts[1..])
  }

  /** Every step is allowed, and only the last one may be the second swap of a push or pop. */
  ghost predicate Playable(v: View, t: nat, clock: nat, hs: Hints, acts: seq<Act>)
    decreases |acts|
  {
    acts == [] ||
    (&& v.debt == Nothing && Enabled(v.h, v.T, acts[0]) && Answers(v.h, v.T, hs, acts[0]) && (Changes(v.T) ==> |acts| == 1)
     && Playable(One(v, t, clock, hs, acts[0]), t, clock + 1, hs, acts[1..]))
  }

  lemma PlayCons(v: View, t: nat, clock: nat, hs: Hints, a: Act, rest: seq<Act>)
    requires v.debt == Nothing && Enabled(v.h, v.T, a) && Answers(v.h, v.T, hs, a) && (Changes(v.T) ==> rest == [])
    ensures var v' := One(v, t, clock, hs, a);
            && Play(v, t, clock, hs, [a] + rest) == Play(v', t, clock + 1, hs, rest)
            && (Playable(v', t, clock + 1, hs, rest) ==> Playable(v, t, clock, hs, [a] + rest))
  {
    assert ([a] + rest)[1..] == rest;
  }

  // ---------------------------------------------------------------- its place in a run

  /** The deque held something after every step from `from` on. */
  ghost predicate BusyRun(s: State, run: seq<Sched>, from: nat) {
    from <= |run| && forall k {:trigger run[..k]} :: from <= k <= |run| ==> Abs(Exec(s, run[..k]).h) != []
  }

  ghost predicate Busy(s: State, ms: seq<Move>, from: nat) { BusyRun(s, WorldOf(s, ms).run, from) }

  lemma BusyLonger(s: State, run: seq<Sched>, run': seq<Sched>, from: nat)
    requires BusyRun(s, run, from) && |run'| == |run| + 1 && run'[..|run|] == run && Abs(Exec(s, run').h) != []
    ensures BusyRun(s, run', from)
  {
    forall k {:trigger run'[..k]} | from <= k <= |run'| ensures Abs(Exec(s, run'[..k]).h) != [] {
      if k == |run'| { assert run'[..k] == run'; } else { assert run'[..k] == run[..k]; }
    }
  }

  lemma BusyEnd(s: State, run: seq<Sched>, from: nat)
    requires BusyRun(s, run, from)
    ensures Abs(Exec(s, run).h) != []
  {
    assert run[..|run|] == run;
  }

  lemma BusyNow(s: State, ms: seq<Move>, from: nat)
    requires Legal(s, ms) && Busy(s, ms, from)
    ensures Abs(WorldOf(s, ms).z.h) != []
  {
    LegalRun(s, ms);
    BusyEnd(s, WorldOf(s, ms).run, from);
  }

  function ViewOf(w: World, t: nat): View
    requires t < |w.z.th| == |w.got| == |w.debts|
  {
    View(w.z.h, w.z.th[t], w.got[t], w.debts[t])
  }

  /** w' is w after thread t alone has come to view v. */
  ghost predicate Moved(w: World, w': World, t: nat, v: View) {
    && t < |w.z.th| == |w.got| == |w.debts|
    && w'.z.h == v.h && w'.z.th == w.z.th[t := v.T] && w'.got == w.got[t := v.got] && w'.debts == w.debts[t := v.debt]
    && w'.hints == w.hints
  }

  lemma Quiet(z: State, t: nat, a: Act)
    requires Inv(z) && CanStep(z, t, a) && !Changes(z.th[t])
    ensures Abs(Step(z, t, a).h) == Abs(z.h)
  {
    StepRefines(z, t, a);
  }

  lemma Then(s: State, ms: seq<Move>, t: nat, a: Act) returns (ms': seq<Move>)
    requires Init(s) && Legal(s, ms) && May(WorldOf(s, ms), Do(t, a))
    ensures |ms'| == |ms| + 1 && ms'[..|ms|] == ms && Legal(s, ms') && WorldOf(s, ms') == Next(WorldOf(s, ms), Do(t, a))
    ensures !Changes(WorldOf(s, ms).z.th[t]) ==> Abs(WorldOf(s, ms').z.h) == Abs(WorldOf(s, ms).z.h)
    ensures WorldOf(s, ms).z.clock == |WorldOf(s, ms).run|
  {
    ms' := ms + [Do(t, a)];
    assert ms'[..|ms'| - 1] == ms;
    LegalRun(s, ms);
    RunInv(s, WorldOf(s, ms).run);
    if !Changes(WorldOf(s, ms).z.th[t]) { Quiet(WorldOf(s, ms).z, t, a); }
  }

  lemma NextMoved(w: World, t: nat, a: Act)
    requires May(w, Do(t, a)) && w.z.clock == |w.run|
    ensures Moved(w, Next(w, Do(t, a)), t, One(ViewOf(w, t), t, |w.run|, w.hints, a))
  {
  }

  lemma MovedTwice(w: World, w1: World, w': World, t: nat, clock: nat, acts: seq<Act>)
    requires t < |w.z.th| == |w.got| == |w.debts| && acts != [] && Playable(ViewOf(w, t), t, clock, w.hints, acts)
    requires Moved(w, w1, t, One(ViewOf(w, t), t, clock, w.hints, acts[0]))
    ensures t < |w1.z.th| == |w1.got| == |w1.debts| && Playable(ViewOf(w1, t), t, clock + 1, w1.hints, acts[1..])
    ensures Moved(w1, w', t, Play(ViewOf(w1, t), t, clock + 1, w1.hints, acts[1..])) ==>
              Moved(w, w', t, Play(ViewOf(w, t), t, clock, w.hints, acts))
  {
    assert ViewOf(w1, t) == One(ViewOf(w, t), t, clock, w.hints, acts[0]);
  }

  /** w' is w after thread t alone made these steps. */
  ghost predicate Follows(w: World, w': World, t: nat, acts: seq<Act>) {
    t < |w.z.th| == |w.got| == |w.debts| && Moved(w, w', t, Play(ViewOf(w, t), t, |w.run|, w.hints, acts))
  }

  lemma FirstWorld(w: World, t: nat, acts: seq<Act>)
    requires acts != [] && May(w, Do(t, acts[0])) && w.z.clock == |w.run|
    requires Playable(ViewOf(w, t), t, |w.run|, w.hints, acts)
    ensures var w1 := Next(w, Do(t, acts[0]));
            && t < |w1.z.th| == |w1.got| == |w1.debts| && w1.hints == w.hints && |w1.run| == |w.run| + 1
            && Playable(ViewOf(w1, t), t, |w1.run|, w1.hints, acts[1..])
            && forall w' :: Follows(w1, w', t, acts[1..]) ==> Follows(w, w', t, acts)
  {
    var w1 := Next(w, Do(t, acts[0]));
    NextMoved(w, t, acts[0]);
    MovedTwice(w, w1, w1, t, |w.run|, acts);
    forall w' | Follows(w1, w', t, acts[1..]) ensures Follows(w, w', t, acts) { MovedTwice(w, w1, w', t, |w.run|, acts); }
  }

  lemma PlayFirst(s: State, ms: seq<Move>, t: nat, acts: seq<Act>, from: nat) returns (r: seq<Move>)
    requires Init(s) && Legal(s, ms) && acts != [] && May(WorldOf(s, ms), Do(t, acts[0]))
    requires |acts| > 1 ==> !Changes(WorldOf(s, ms).z.th[t])
    ensures Legal(s, r) && WorldOf(s, r) == Next(WorldOf(s, ms), Do(t, acts[0])) && WorldOf(s, ms).z.clock == |WorldOf(s, ms).run|
    ensures Busy(s, ms, from) && (|acts| > 1 || Abs(WorldOf(s, r).z.h) != []) ==> Busy(s, r, from)
  {
    r := Then(s, ms, t, acts[0]);
    if Busy(s, ms, from) && (|acts| > 1 || Abs(WorldOf(s, r).z.h) != []) {
      BusyNow(s, ms, from);
      BusyStep(s, ms, r, Sched(t, acts[0]), from);
    }
  }

  lemma BusyStep(s: State, ms: seq<Move>, r: seq<Move>, x: Sched, from: nat)
    requires Legal(s, r) && Busy(s, ms, from) && WorldOf(s, r).run == WorldOf(s, ms).run + [x] && Abs(WorldOf(s, r).z.h) != []
    ensures Busy(s, r, from)
  {
    LegalRun(s, r);
    BusyLonger(s, WorldOf(s, ms).run, WorldOf(s, r).run, from);
  }

  function Steps(t: nat, acts: seq<Act>): seq<Sched> { seq(|acts|, i requires 0 <= i < |acts| => Sched(t, acts[i])) }

  lemma StepsFirst(t: nat, acts: seq<Act>, run: seq<Sched>)
    requires acts != []
    ensures run + Steps(t, acts) == run + [Sched(t, acts[0])] + Steps(t, acts[1..])
  {
  }

  /** The steps of one thread without interference, placed in a run: the deque stays busy if it ends with something in it. */
  lemma {:induction false} PlayRun(s: State, ms: seq<Move>, t: nat, acts: seq<Act>, from: nat) returns (ms': seq<Move>)
    requires Init(s) && Legal(s, ms) && t < |WorldOf(s, ms).z.th| == |WorldOf(s, ms).got| == |WorldOf(s, ms).debts|
    requires var w := WorldOf(s, ms); Playable(ViewOf(w, t), t, |w.run|, w.hints, acts)
    ensures Legal(s, ms') && Follows(WorldOf(s, ms), WorldOf(s, ms'), t, acts)
    ensures WorldOf(s, ms').run == WorldOf(s, ms).run + Steps(t, acts)
    ensures Busy(s, ms, from) && Abs(WorldOf(s, ms').z.h) != [] ==> Busy(s, ms', from)
    decreases |acts|
  {
    if acts == [] {
      ms' := ms;
    } else {
      var r := PlayFirst(s, ms, t, acts, from);
      FirstWorld(WorldOf(s, ms), t, acts);
      StepsFirst(t, acts, WorldOf(s, ms).run);
      ms' := PlayRun(s, r, t, acts[1..], from);
    }
  }

  /** A hint update. */
  lemma Paid(s: State, ms: seq<Move>, t: nat, c: int, from: nat) returns (ms': seq<Move>)
    requires Init(s) && Legal(s, ms) && May(WorldOf(s, ms), Pay(t, c))
    ensures Legal(s, ms') && WorldOf(s, ms') == Next(WorldOf(s, ms), Pay(t, c)) && (Busy(s, ms, from) ==> Busy(s, ms', from))
  {
    ms' := ms + [Pay(t, c)];
    assert ms'[..|ms'| - 1] == ms;
  }
}
