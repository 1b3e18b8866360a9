/** Whole operations of OFDeque.hpp made by one thread while the others stand still, placed in a run with hints. */
module OFOps {
  import opened DequeSpec
  import opened OFHeap
  import opened OFMoves
  import opened OFMachine
  import opened OFEdge
  import opened OFSearch
  import opened OFDeque
  import opened OFTidy
  import opened OFHints

  // ---------------------------------------------------------------- whole operations of one thread

  /** The locals of a call that has loaded the two slots at the place it aimed at. */
  function Aimed(h: Heap, T: Thread, op: Op, b: int, i: int, start: nat): Thread {
    var T1 := T.(op := op, b := b, i := i, near := At(h.mem, b, i), far := At(h.mem, b, i + Dir(op.side)),
                 start := start, lin := None, fooled := false);
    T1.(pc := AfterFar(T1))
  }

  function Aiming(op: Op, b: int, i: int, word: int): seq<Act> { [Invoke(op), Aim(b, i), Go(word), Go(word)] }

  lemma Look2(v: View, t: nat, clock: nat, hs: Hints, word: int, rest: seq<Act>)
    requires v.debt == Nothing && v.T.pc == LoadNear && v.T.lin == None && !v.T.fooled
    ensures var v' := v.(T := Aimed(v.h, v.T, v.T.op, v.T.b, v.T.i, v.T.start));
            && Play(v, t, clock, hs, [Go(word), Go(word)] + rest) == Play(v', t, clock + 2, hs, rest)
            && (Playable(v', t, clock + 2, hs, rest) ==> Playable(v, t, clock, hs, [Go(word), Go(word)] + rest))
  {
    PlayCons(v.(T := v.T.(near := Load(v.h, NearLoc(v.T)), pc := LoadFar)), t, clock + 1, hs, Go(word), rest);
    PlayCons(v, t, clock, hs, Go(word), [Go(word)] + rest);
    assert [Go(word), Go(word)] + rest == [Go(word)] + ([Go(word)] + rest);
  }

  /** An idle thread that owes nothing, and an answer of the oracle to a call of it. */
  ghost predicate CanAim(v: View, hs: Hints, op: Op, b: int, i: int) {
    && v.debt == Nothing && v.T.pc == Idle && b in v.h.bufs && 0 <= i < N && 0 <= i + Dir(op.side) < N
    && Found(v.h.mem, op.side, Of(hs, op.side).buf, b, i)
  }

  function AimedView(v: View, hs: Hints, op: Op, b: int, i: int, clock: nat): View {
    v.(T := Aimed(v.h, v.T, op, b, i, clock + 1), got := Of(hs, op.side))
  }

  function Begun(v: View, hs: Hints, op: Op, b: int, i: int, clock: nat): View {
    v.(T := v.T.(op := op, start := clock + 1, lin := None, b := b, i := i, pc := LoadNear, fooled := false), got := Of(hs, op.side))
  }

  lemma Begin(v: View, t: nat, clock: nat, hs: Hints, op: Op, b: int, i: int, rest: seq<Act>)
    requires CanAim(v, hs, op, b, i)
    ensures var v' := Begun(v, hs, op, b, i, clock);
            && Play(v, t, clock, hs, [Invoke(op), Aim(b, i)] + rest) == Play(v', t, clock + 2, hs, rest)
            && (Playable(v', t, clock + 2, hs, rest) ==> Playable(v, t, clock, hs, [Invoke(op), Aim(b, i)] + rest))
  {
    var v1 := v.(T := v.T.(op := op, pc := Oracle, start := clock + 1, lin := None));
    PlayCons(v1, t, clock + 1, hs, Aim(b, i), rest);
    PlayCons(v, t, clock, hs, Invoke(op), [Aim(b, i)] + rest);
    assert [Invoke(op), Aim(b, i)] + rest == [Invoke(op)] + ([Aim(b, i)] + rest);
  }

  lemma Approach(v: View, t: nat, clock: nat, hs: Hints, op: Op, b: int, i: int, word: int, rest: seq<Act>)
    requires CanAim(v, hs, op, b, i)
    ensures var v' := AimedView(v, hs, op, b, i, clock);
            && Play(v, t, clock, hs, Aiming(op, b, i, word) + rest) == Play(v', t, clock + 4, hs, rest)
            && (Playable(v', t, clock + 4, hs, rest) ==> Playable(v, t, clock, hs, Aiming(op, b, i, word) + rest))
  {
    Begin(v, t, clock, hs, op, b, i, [Go(word), Go(word)] + rest);
    Look2(Begun(v, hs, op, b, i, clock), t, clock + 2, hs, word, rest);
    assert Aiming(op, b, i, word) + rest == [Invoke(op), Aim(b, i)] + ([Go(word), Go(word)] + rest);
  }

  /** The locals after the loads across the border. */
  function Crossing(h: Heap, T: Thread): Thread {
    var T1 := T.(reach := Load(h, ReachLoc(T)));
    var back := Load(h, BackLoc(T));
    T1.(pc := AfterBack(T1, back), fooled := Fooled(T1, back))
  }

  lemma Cross(v: View, t: nat, clock: nat, hs: Hints, word: int, rest: seq<Act>)
    requires v.debt == Nothing && v.T.pc == LoadReach
    ensures var v' := v.(T := Crossing(v.h, v.T));
            && Play(v, t, clock, hs, [Go(word), Go(word)] + rest) == Play(v', t, clock + 2, hs, rest)
            && (Playable(v', t, clock + 2, hs, rest) ==> Playable(v, t, clock, hs, [Go(word), Go(word)] + rest))
  {
    PlayCons(v.(T := v.T.(reach := Load(v.h, ReachLoc(v.T)), pc := LoadBack)), t, clock + 1, hs, Go(word), rest);
    PlayCons(v, t, clock, hs, Go(word), [Go(word)] + rest);
    assert [Go(word), Go(word)] + rest == [Go(word)] + ([Go(word)] + rest);
  }

  /** What the two swaps of a guarded operation do when nobody interferes. */
  function Swapped(h: Heap, T: Thread, t: nat, k: Kind, a: Act): Out {
    Hit(Put(h, GuardLoc(T, k), Bumped(GuardSlot(T, k))), T.(pc := Target(k)), t, k, a)
  }

  ghost predicate CanSwap(h: Heap, T: Thread, k: Kind, a: Act) {
    && T.pc == Guard(k) && Load(h, GuardLoc(T, k)) == GuardSlot(T, k)
    && Load(h, TargetLoc(T, k)) == TargetSlot(T, k) && TargetLoc(T, k) != GuardLoc(T, k)
    && (if k == KAppend then T.op.Push? && a.Attach? && a.d !in h.bufs && Prepared(a.nb, T.op.side, T.b, a.d, T.op.value) else a.Go?)
  }

  /** The debt that the swap leaves. */
  function SwapDebt(T: Thread, k: Kind, a: Act): Debt {
    match k
    case KAppend => if a.Attach? then Swing(a.d) else Nothing
    case KStraddle => Swing(T.far.word)
    case KPop => if T.i == FarValue(T.op.side) then Swing(T.b) else Nothing
    case KUnlink => RenewBoth
    case _ => Nothing
  }

  function SwappedView(v: View, t: nat, k: Kind, a: Act): View {
    var o := Swapped(v.h, v.T, t, k, a);
    View(o.h, o.T, v.got, SwapDebt(v.T, k, a))
  }

  lemma Swap(v: View, t: nat, clock: nat, hs: Hints, k: Kind, word: int, a: Act, rest: seq<Act>)
    requires v.debt == Nothing && CanSwap(v.h, v.T, k, a) && (rest == [] || k == KSeal)
    ensures var v' := SwappedView(v, t, k, a);
            && Play(v, t, clock, hs, [Go(word), a] + rest) == Play(v', t, clock + 2, hs, rest)
            && (Playable(v', t, clock + 2, hs, rest) ==> Playable(v, t, clock, hs, [Go(word), a] + rest))
  {
    var v1 := v.(h := Put(v.h, GuardLoc(v.T, k), Bumped(GuardSlot(v.T, k))), T := v.T.(pc := Target(k)));
    assert Load(v1.h, TargetLoc(v1.T, k)) == TargetSlot(v1.T, k);
    PlayCons(v1, t, clock + 1, hs, a, rest);
    PlayCons(v, t, clock, hs, Go(word), [a] + rest);
    assert [Go(word), a] + rest == [Go(word)] + ([a] + rest);
  }

  // ---------------------------------------------------------------- placed in a run

  /** A run with hints of four threads. */
  ghost predicate Reached(s: State, ms: seq<Move>, p: Pool) {
    var w := WorldOf(s, ms); Init(s) && Legal(s, ms) && |w.z.th| == |w.got| == |w.debts| == 4 && Using(s, w.run, p)
  }

  ghost predicate Onward(s: State, ms: seq<Move>, ms': seq<Move>, from: nat) {
    Busy(s, ms, from) && Abs(WorldOf(s, ms').z.h) != [] ==> Busy(s, ms', from)
  }

  ghost predicate AllOk(acts: seq<Act>, p: Pool) { forall k {:trigger acts[k]} :: 0 <= k < |acts| ==> ActOk(acts[k], p) }

  lemma Perform(s: State, ms: seq<Move>, p: Pool, t: nat, acts: seq<Act>, from: nat) returns (ms': seq<Move>)
    requires Reached(s, ms, p) && t < 4 && AllOk(acts, p)
    requires var w := WorldOf(s, ms); Playable(ViewOf(w, t), t, |w.run|, w.hints, acts)
    ensures Reached(s, ms', p) && Follows(WorldOf(s, ms), WorldOf(s, ms'), t, acts) && Onward(s, ms, ms', from)
  {
    ms' := PlayRun(s, ms, t, acts, from);
  }

  lemma AimingOk(op: Op, b: int, i: int, word: int, acts: seq<Act>, p: Pool)
    requires word in p.words && AllOk(acts, p)
    ensures AllOk(Aiming(op, b, i, word) + acts, p)
  {
    var all := Aiming(op, b, i, word) + acts;
    forall k {:trigger all[k]} | 0 <= k < |all| ensures ActOk(all[k], p) { if k >= 4 { assert all[k] == acts[k - 4]; } }
  }

  lemma GoingOk(word: int, acts: seq<Act>, p: Pool)
    requires word in p.words && AllOk(acts, p)
    ensures AllOk([Go(word), Go(word)] + acts, p)
  {
    var all := [Go(word), Go(word)] + acts;
    forall k {:trigger all[k]} | 0 <= k < |all| ensures ActOk(all[k], p) { if k >= 2 { assert all[k] == acts[k - 2]; } }
  }

  lemma PlayedInside(v: View, t: nat, clock: nat, hs: Hints, op: Op, b: int, i: int, k: Kind, word: int, a: Act)
    requires CanAim(v, hs, op, b, i) && CanSwap(v.h, Aimed(v.h, v.T, op, b, i, clock + 1), k, a)
    ensures var acts := Aiming(op, b, i, word) + [Go(word), a];
            && Play(v, t, clock, hs, acts) == SwappedView(AimedView(v, hs, op, b, i, clock), t, k, a)
            && Playable(v, t, clock, hs, acts)
  {
    Swap(AimedView(v, hs, op, b, i, clock), t, clock + 4, hs, k, word, a, []);
    assert [Go(word), a] + [] == [Go(word), a];
    Approach(v, t, clock, hs, op, b, i, word, [Go(word), a]);
  }

  /** A push, append or pop on one buffer. */
  lemma Inside(s: State, ms: seq<Move>, p: Pool, t: nat, op: Op, b: int, i: int, k: Kind, word: int, a: Act, from: nat) returns (ms': seq<Move>)
    requires Reached(s, ms, p) && t < 4 && word in p.words && ActOk(a, p)
    requires var w := WorldOf(s, ms); CanAim(ViewOf(w, t), w.hints, op, b, i)
    requires var w := WorldOf(s, ms); CanSwap(w.z.h, Aimed(w.z.h, w.z.th[t], op, b, i, |w.run| + 1), k, a)
    ensures Reached(s, ms', p) && Onward(s, ms, ms', from)
    ensures var w := WorldOf(s, ms); Moved(w, WorldOf(s, ms'), t, SwappedView(AimedView(ViewOf(w, t), w.hints, op, b, i, |w.run|), t, k, a))
  {
    var w := WorldOf(s, ms);
    PlayedInside(ViewOf(w, t), t, |w.run|, w.hints, op, b, i, k, word, a);
    AimingOk(op, b, i, word, [Go(word), a], p);
    ms' := Perform(s, ms, p, t, Aiming(op, b, i, word) + [Go(word), a], from);
  }

  function CrossedView(v: View, hs: Hints, op: Op, b: int, i: int, clock: nat): View {
    var v1 := AimedView(v, hs, op, b, i, clock);
    v1.(T := Crossing(v.h, v1.T))
  }

  ghost predicate CanCross(v: View, hs: Hints, op: Op, b: int, i: int, clock: nat) {
    CanAim(v, hs, op, b, i) && Aimed(v.h, v.T, op, b, i, clock + 1).pc == LoadReach
  }

  lemma PlayedAcross(v: View, t: nat, clock: nat, hs: Hints, op: Op, b: int, i: int, k: Kind, word: int, rest: seq<Act>)
    requires CanCross(v, hs, op, b, i, clock) && CanSwap(v.h, CrossedView(v, hs, op, b, i, clock).T, k, Go(word))
    requires rest == [] || k == KSeal
    ensures var acts := Aiming(op, b, i, word) + ([Go(word), Go(word)] + ([Go(word), Go(word)] + rest));
            var v' := SwappedView(CrossedView(v, hs, op, b, i, clock), t, k, Go(word));
            && Play(v, t, clock, hs, acts) == Play(v', t, clock + 8, hs, rest)
            && (Playable(v', t, clock + 8, hs, rest) ==> Playable(v, t, clock, hs, acts))
  {
    Swap(CrossedView(v, hs, op, b, i, clock), t, clock + 6, hs, k, word, Go(word), rest);
    Cross(AimedView(v, hs, op, b, i, clock), t, clock + 4, hs, word, [Go(word), Go(word)] + rest);
    Approach(v, t, clock, hs, op, b, i, word, [Go(word), Go(word)] + ([Go(word), Go(word)] + rest));
  }

  /** A push into the empty neighbour. */
  lemma Straddle(s: State, ms: seq<Move>, p: Pool, t: nat, op: Op, b: int, i: int, word: int, from: nat) returns (ms': seq<Move>)
    requires Reached(s, ms, p) && t < 4 && word in p.words
    requires var w := WorldOf(s, ms); var v := ViewOf(w, t);
             CanCross(v, w.hints, op, b, i, |w.run|) && CanSwap(w.z.h, CrossedView(v, w.hints, op, b, i, |w.run|).T, KStraddle, Go(word))
    ensures Reached(s, ms', p) && Onward(s, ms, ms', from)
    ensures var w := WorldOf(s, ms);
            Moved(w, WorldOf(s, ms'), t, SwappedView(CrossedView(ViewOf(w, t), w.hints, op, b, i, |w.run|), t, KStraddle, Go(word)))
  {
    var w := WorldOf(s, ms);
    PlayedAcross(ViewOf(w, t), t, |w.run|, w.hints, op, b, i, KStraddle, word, []);
    GoingOk(word, [], p);
    GoingOk(word, [Go(word), Go(word)] + [], p);
    AimingOk(op, b, i, word, [Go(word), Go(word)] + ([Go(word), Go(word)] + []), p);
    ms' := Perform(s, ms, p, t, Aiming(op, b, i, word) + ([Go(word), Go(word)] + ([Go(word), Go(word)] + [])), from);
  }

  /** After the empty neighbour was sealed and unlinked. */
  function RemovedView(v: View, t: nat, hs: Hints, op: Op, b: int, i: int, clock: nat, word: int): View {
    SwappedView(SwappedView(CrossedView(v, hs, op, b, i, clock), t, KSeal, Go(word)), t, KUnlink, Go(word))
  }

  ghost predicate CanRemove(v: View, t: nat, hs: Hints, op: Op, b: int, i: int, clock: nat, word: int) {
    var v1 := CrossedView(v, hs, op, b, i, clock);
    var v2 := SwappedView(v1, t, KSeal, Go(word));
    CanCross(v, hs, op, b, i, clock) && CanSwap(v1.h, v1.T, KSeal, Go(word)) && CanSwap(v2.h, v2.T, KUnlink, Go(word))
  }

  lemma PlayedRemove(v: View, t: nat, clock: nat, hs: Hints, op: Op, b: int, i: int, word: int)
    requires CanRemove(v, t, hs, op, b, i, clock, word)
    ensures var acts := Aiming(op, b, i, word) + ([Go(word), Go(word)] + ([Go(word), Go(word)] + [Go(word), Go(word)]));
            && Play(v, t, clock, hs, acts) == RemovedView(v, t, hs, op, b, i, clock, word) && Playable(v, t, clock, hs, acts)
  {
    Swap(SwappedView(CrossedView(v, hs, op, b, i, clock), t, KSeal, Go(word)), t, clock + 8, hs, KUnlink, word, Go(word), []);
    assert [Go(word), Go(word)] + [] == [Go(word), Go(word)];
    PlayedAcross(v, t, clock, hs, op, b, i, KSeal, word, [Go(word), Go(word)]);
  }

  /** Thread t seals and unlinks the empty neighbour, and owes the hint updates of `retire`. */
  lemma Remove(s: State, ms: seq<Move>, p: Pool, t: nat, op: Op, b: int, i: int, word: int, from: nat) returns (ms': seq<Move>)
    requires Reached(s, ms, p) && t < 4 && word in p.words
    requires var w := WorldOf(s, ms); CanRemove(ViewOf(w, t), t, w.hints, op, b, i, |w.run|, word)
    ensures Reached(s, ms', p) && Onward(s, ms, ms', from)
    ensures var w := WorldOf(s, ms); Moved(w, WorldOf(s, ms'), t, RemovedView(ViewOf(w, t), t, w.hints, op, b, i, |w.run|, word))
  {
    var w := WorldOf(s, ms);
    PlayedRemove(ViewOf(w, t), t, |w.run|, w.hints, op, b, i, word);
    GoingOk(word, [Go(word), Go(word)], p);
    GoingOk(word, [Go(word), Go(word)] + [Go(word), Go(word)], p);
    AimingOk(op, b, i, word, [Go(word), Go(word)] + ([Go(word), Go(word)] + [Go(word), Go(word)]), p);
    ms' := Perform(s, ms, p, t, Aiming(op, b, i, word) + ([Go(word), Go(word)] + ([Go(word), Go(word)] + [Go(word), Go(word)])), from);
  }

  /** A call that owes nothing returns. */
  lemma Finish(s: State, ms: seq<Move>, p: Pool, t: nat, from: nat) returns (ms': seq<Move>)
    requires Reached(s, ms, p) && t < 4 && WorldOf(s, ms).z.th[t].pc.Return? && WorldOf(s, ms).debts[t] == Nothing
    ensures Reached(s, ms', p) && Onward(s, ms, ms', from)
    ensures var w := WorldOf(s, ms); Moved(w, WorldOf(s, ms'), t, ViewOf(w, t).(T := w.z.th[t].(pc := Idle, lin := None)))
  {
    var w := WorldOf(s, ms);
    PlayCons(ViewOf(w, t), t, |w.run|, w.hints, Respond, []);
    assert [Respond] + [] == [Respond];
    ms' := Perform(s, ms, p, t, [Respond], from);
  }

  /** A hint update of thread t. */
  lemma Update(s: State, ms: seq<Move>, p: Pool, t: nat, c: int, from: nat) returns (ms': seq<Move>)
    requires Reached(s, ms, p) && May(WorldOf(s, ms), Pay(t, c))
    ensures Reached(s, ms', p) && WorldOf(s, ms') == Next(WorldOf(s, ms), Pay(t, c)) && (Busy(s, ms, from) ==> Busy(s, ms', from))
  {
    ms' := Paid(s, ms, t, c, from);
  }
}
