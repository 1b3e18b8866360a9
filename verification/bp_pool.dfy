/** Conservation in BlockPool.hpp: every block is in exactly one place, and the fields of the pool describe those places. */
module BPPool {
  import opened BPMachine

  // ---------------------------------------------------------------- invariant

  ghost predicate LinkAt(s: State, l: seq<int>, i: nat)
    requires i < |l|
  {
    && 0 < l[i] < s.brk && l[i] in s.next && l[i] in s.nextGroup && l[i] in s.place
    && Next(s, l[i]) == if i + 1 < |l| then l[i + 1] else NULL
  }

  /** The `next` fields from l[0] on lead through l to null. */
  ghost predicate Chain(s: State, l: seq<int>) {
    && (forall i {:trigger LinkAt(s, l, i)} :: 0 <= i < |l| ==> LinkAt(s, l, i))
    && (forall i, j :: 0 <= i < j < |l| ==> l[i] != l[j])
  }

  ghost predicate Placed(s: State, l: seq<int>, p: Place) { forall b :: b in l ==> b in s.place && s.place[b] == p }

  /** `count` is the length of the local list; `nth` is its (GROUP_SIZE+1)-th block from the bottom, if there is one. */
  ghost predicate HeadOk(h: Head, l: seq<int>) {
    && h.top == (if l == [] then NULL else l[0])
    && h.count == |l|
    && h.nth == (if |l| > GROUP_SIZE then l[|l| - GROUP_SIZE - 1] else NULL)
  }

  ghost predicate LocalOk(s: State, t: nat)
    requires t < |s.th| == |s.local|
  {
    && Chain(s, s.local[t]) && Placed(s, s.local[t], Local(t)) && HeadOk(s.th[t].head, s.local[t])
    && |s.local[t]| <= 2 * GROUP_SIZE
  }

  ghost predicate GroupOk(s: State, i: nat)
    requires i < |s.groups|
  {
    var g := s.groups[i];
    && g in s.content && |s.content[g]| == GROUP_SIZE && s.content[g][0] == g
    && Chain(s, s.content[g]) && Placed(s, s.content[g], Group(g))
    && NextGroup(s, g) == if i + 1 < |s.groups| then s.groups[i + 1] else NULL
  }

  ghost predicate BlockOk(s: State, b: int) {
    b in s.place ==>
      && 0 < b < s.brk && b in s.next && b in s.nextGroup
      && match s.place[b]
         case Client => true
         case Local(t) => t < |s.local| && b in s.local[t]
         case Group(g) => g in s.groups && b in ContentOf(s, g)
  }

  /** The snapshot of the pool is current unless the serial number has moved on. */
  ghost predicate ThreadOk(s: State, t: nat)
    requires t < |s.th| == |s.local|
  {
    var T := s.th[t];
    && (T.pc != Idle && T.pc != AllocLoad && T.pc != FreeLoad ==> T.seen.sn <= s.pool.sn && (T.seen.sn == s.pool.sn ==> T.seen == s.pool))
    && (T.pc == AllocLoad || T.pc == AllocGroup || T.pc == AllocCas ==> s.local[t] == [])
    && (T.pc == AllocGroup || T.pc == AllocCas ==> T.seen.ptr != NULL)
    && (T.pc == AllocCas && s.pool == T.seen ==> T.group == NextGroup(s, T.seen.ptr))
    && (T.pc == FreeLoad || T.pc == FreeStore || T.pc == FreeCas ==> |s.local[t]| == 2 * GROUP_SIZE)
    && (T.pc == FreeCas ==> NextGroup(s, Next(s, T.head.nth)) == T.seen.ptr)
    && (T.pc == Idle ==> |s.local[t]| < 2 * GROUP_SIZE)
  }

  ghost predicate Inv(s: State) {
    && |s.local| == |s.th| && s.brk > 0
    && (forall t {:trigger LocalOk(s, t)} :: 0 <= t < |s.th| ==> LocalOk(s, t))
    && (forall t {:trigger ThreadOk(s, t)} :: 0 <= t < |s.th| ==> ThreadOk(s, t))
    && (forall i {:trigger GroupOk(s, i)} :: 0 <= i < |s.groups| ==> GroupOk(s, i))
    && (forall i, j :: 0 <= i < j < |s.groups| ==> s.groups[i] != s.groups[j])
    && s.pool.ptr == (if s.groups == [] then NULL else s.groups[0])
    && (forall b {:trigger BlockOk(s, b)} :: BlockOk(s, b))
    && (forall b :: b in s.next || b in s.nextGroup ==> b in s.place)
  }

  // ---------------------------------------------------------------- frames

  /** The blocks of l keep their `next` field. */
  lemma ChainFrame(s: State, s': State, l: seq<int>)
    requires Chain(s, l) && s.brk <= s'.brk
    requires forall b :: b in l ==> b in s'.next && b in s'.nextGroup && b in s'.place && Next(s', b) == Next(s, b)
    ensures Chain(s', l)
  {
    forall i {:trigger LinkAt(s', l, i)} | 0 <= i < |l| ensures LinkAt(s', l, i) { assert LinkAt(s, l, i); }
  }

  lemma ChainSame(s: State, s': State, l: seq<int>)
    requires Chain(s, l) && s'.brk == s.brk && s'.next == s.next && s'.place == s.place && s.nextGroup.Keys <= s'.nextGroup.Keys
    ensures Chain(s', l)
  {
    forall i {:trigger LinkAt(s', l, i)} | 0 <= i < |l| ensures LinkAt(s', l, i) { assert LinkAt(s, l, i); }
  }

  /** What a step of thread t leaves alone: the blocks that are neither its own, nor with a client, nor in a group it takes. */
  ghost predicate Kept(s: State, s': State, t: nat, b: int) {
    b in s.place && s.place[b] != Client && s.place[b] != Local(t) && (s.place[b].Group? ==> s.place[b].first in s'.groups) ==>
      b in s'.place && s'.place[b] == s.place[b] && b in s'.next && Next(s', b) == Next(s, b) && b in s'.nextGroup && NextGroup(s', b) == NextGroup(s, b)
  }

  ghost predicate Others(s: State, s': State, t: nat) {
    && |s'.th| == |s.th| == |s.local| == |s'.local| && s.brk <= s'.brk && t < |s.th|
    && (forall u :: 0 <= u < |s.th| && u != t ==> s'.th[u] == s.th[u] && s'.local[u] == s.local[u])
    && ((s'.pool == s.pool && s'.groups == s.groups) || s'.pool.sn == s.pool.sn + 1)
  }

  lemma OtherLocal(s: State, s': State, t: nat, u: nat)
    requires Inv(s) && Others(s, s', t) && u < |s.th| && u != t
    requires forall b {:trigger Kept(s, s', t, b)} :: Kept(s, s', t, b)
    ensures LocalOk(s', u)
  {
    assert LocalOk(s, u);
    forall b | b in s.local[u] ensures b in s'.place && s'.place[b] == Local(u) && b in s'.next && b in s'.nextGroup && Next(s', b) == Next(s, b) {
      assert Kept(s, s', t, b);
    }
    ChainFrame(s, s', s.local[u]);
  }

  lemma OtherThread(s: State, s': State, t: nat, u: nat)
    requires Inv(s) && Others(s, s', t) && u < |s.th| && u != t
    requires forall b {:trigger Kept(s, s', t, b)} :: Kept(s, s', t, b)
    ensures ThreadOk(s', u)
  {
    assert ThreadOk(s, u) && LocalOk(s, u);
    var T := s.th[u];
    if T.pc == AllocCas && s'.pool == T.seen {
      assert GroupOk(s, 0);
      assert s.groups[0] in s.content[s.groups[0]];
      assert Kept(s, s', t, T.seen.ptr);
    }
    if T.pc == FreeCas {
      NthNext(s, u);
      assert Kept(s, s', t, T.head.nth) && Kept(s, s', t, Next(s, T.head.nth));
    }
  }

  /** In a full list, the block behind `nth` starts the lower half. */
  lemma NthNext(s: State, t: nat)
    requires |s.th| == |s.local| && t < |s.th| && LocalOk(s, t) && |s.local[t]| == 2 * GROUP_SIZE
    ensures var l := s.local[t]; s.th[t].head.nth == l[GROUP_SIZE - 1] && Next(s, l[GROUP_SIZE - 1]) == l[GROUP_SIZE]
    ensures s.local[t][GROUP_SIZE - 1] in s.local[t] && s.local[t][GROUP_SIZE] in s.local[t]
  {
    assert LinkAt(s, s.local[t], GROUP_SIZE - 1);
  }

  lemma GroupFrame(s: State, s': State, t: nat, i: nat, j: nat)
    requires Inv(s) && Others(s, s', t) && i < |s.groups| && j < |s'.groups| && s'.groups[j..] == s.groups[i..]
    requires forall b {:trigger Kept(s, s', t, b)} :: Kept(s, s', t, b)
    requires s.groups[i] in s'.content && ContentOf(s', s.groups[i]) == ContentOf(s, s.groups[i])
    ensures GroupOk(s', j)
  {
    assert GroupOk(s, i);
    var g := s.groups[i];
    assert s'.groups[j..][0] == s.groups[i..][0];
    if i + 1 < |s.groups| { assert s'.groups[j..][1] == s.groups[i..][1]; }
    assert g in s.content[g];
    forall b | b in s.content[g] ensures b in s'.place && s'.place[b] == Group(g) && b in s'.next && b in s'.nextGroup && Next(s', b) == Next(s, b) {
      assert Kept(s, s', t, b);
    }
    assert Kept(s, s', t, g);
    ChainFrame(s, s', s.content[g]);
  }

  lemma BlockFrame(s: State, s': State, t: nat, b: int)
    requires Inv(s) && Others(s, s', t) && b in s.place && s.place[b] != Client && s.place[b] != Local(t) && Kept(s, s', t, b)
    requires s.place[b].Group? ==> s.place[b].first in s'.groups && ContentOf(s', s.place[b].first) == ContentOf(s, s.place[b].first)
    ensures BlockOk(s', b)
  {
    assert BlockOk(s, b);
  }

  /** A step of thread t keeps the invariant if the thread itself, the groups and the blocks it touched are in order. */
  lemma Assemble(s: State, s': State, t: nat)
    requires Inv(s) && Others(s, s', t) && LocalOk(s', t) && ThreadOk(s', t)
    requires forall b {:trigger Kept(s, s', t, b)} :: Kept(s, s', t, b)
    requires forall i {:trigger GroupOk(s', i)} :: 0 <= i < |s'.groups| ==> GroupOk(s', i)
    requires forall i, j :: 0 <= i < j < |s'.groups| ==> s'.groups[i] != s'.groups[j]
    requires s'.pool.ptr == (if s'.groups == [] then NULL else s'.groups[0])
    requires forall b {:trigger BlockOk(s', b)} :: BlockOk(s', b)
    requires forall b :: b in s'.next || b in s'.nextGroup ==> b in s'.place
    ensures Inv(s')
  {
    forall u {:trigger LocalOk(s', u)} | 0 <= u < |s'.th| ensures LocalOk(s', u) { if u != t { OtherLocal(s, s', t, u); } }
    forall u {:trigger ThreadOk(s', u)} | 0 <= u < |s'.th| ensures ThreadOk(s', u) { if u != t { OtherThread(s, s', t, u); } }
  }

  /** The same for a step that leaves the groups alone; `Mine` are the blocks it may have moved. */
  lemma AssembleLocal(s: State, s': State, t: nat)
    requires Inv(s) && Others(s, s', t) && LocalOk(s', t) && ThreadOk(s', t)
    requires forall b {:trigger Kept(s, s', t, b)} :: Kept(s, s', t, b)
    requires s'.groups == s.groups && s'.content == s.content && s'.pool == s.pool
    requires forall b :: b in s'.place && (b !in s.place || s.place[b] == Client || s.place[b] == Local(t)) ==> BlockOk(s', b)
    requires forall b :: b in s'.next || b in s'.nextGroup ==> b in s'.place
    ensures Inv(s')
  {
    forall i {:trigger GroupOk(s', i)} | 0 <= i < |s'.groups| ensures GroupOk(s', i) { assert GroupOk(s, i); GroupFrame(s, s', t, i, i); }
    forall b {:trigger BlockOk(s', b)} ensures BlockOk(s', b) {
      assert BlockOk(s, b) && Kept(s, s', t, b);
      if b in s.place && s.place[b] != Client && s.place[b] != Local(t) {
        if s.place[b].Group? { assert s.place[b].first in s'.groups; }
        BlockFrame(s, s', t, b);
      }
    }
    Assemble(s, s', t);
  }

  // ---------------------------------------------------------------- alloc

  lemma PopKeeps(s: State, t: nat)
    requires Inv(s) && t < |s.th| && s.th[t].pc == Idle && s.th[t].head.top != NULL
    ensures Inv(PopLocal(s, t))
    ensures var b := s.th[t].head.top; b in s.place && s.place[b] == Local(t) && PopLocal(s, t).place[b] == Client
  {
    var s' := PopLocal(s, t);
    assert LocalOk(s, t) && ThreadOk(s, t);
    var l := s.local[t];
    assert l[0] in l && LinkAt(s, l, 0);
    forall c {:trigger Kept(s, s', t, c)} ensures Kept(s, s', t, c) { assert BlockOk(s, c); }
    PopLocalOk(s, t);
    forall c | c in s'.place && (c !in s.place || s.place[c] == Client || s.place[c] == Local(t)) ensures BlockOk(s', c) {
      assert BlockOk(s, c);
      if c in l && c != l[0] { assert c in l[1..]; }
    }
    AssembleLocal(s, s', t);
  }

  lemma PopLocalOk(s: State, t: nat)
    requires |s.local| == |s.th| && t < |s.th| && LocalOk(s, t) && s.local[t] != []
    ensures LocalOk(PopLocal(s, t), t)
  {
    var s' := PopLocal(s, t);
    var l := s.local[t];
    assert forall c :: c in l[1..] ==> c in l && c != l[0];
    assert LinkAt(s, l, 0);
    forall i {:trigger LinkAt(s', l[1..], i)} | 0 <= i < |l[1..]| ensures LinkAt(s', l[1..], i) { assert LinkAt(s, l, i + 1); }
  }

  lemma AppendOk(s: State, t: nat)
    requires Inv(s) && t < |s.th| && s.local[t] == []
    ensures var s' := PopLocal(AppendGroup(s, t), t); s'.local[t] == NewBlocks(s.brk)[1..] && LocalOk(s', t)
  {
    var e := s.brk;
    var l := NewBlocks(e);
    var s' := PopLocal(AppendGroup(s, t), t);
    assert l[0] == e;
    forall i | 0 <= i < |l| ensures l[i] in l {}
    forall i {:trigger LinkAt(s', l[1..], i)} | 0 <= i < |l[1..]| ensures LinkAt(s', l[1..], i) { assert l[1..][i] == l[i + 1] && l[i + 1] in l; }
    forall c | c in l[1..] ensures c in s'.place && s'.place[c] == Local(t) { assert c in l; }
  }

  lemma AppendKeeps(s: State, t: nat)
    requires Inv(s) && t < |s.th| && s.th[t].pc == AllocLoad
    ensures Inv(PopLocal(AppendGroup(s, t), t))
    ensures var b := s.brk; b !in s.place && var z := PopLocal(AppendGroup(s, t), t).place; b in z && z[b] == Client
  {
    var s' := PopLocal(AppendGroup(s, t), t);
    var l := NewBlocks(s.brk);
    assert ThreadOk(s, t) && BlockOk(s, s.brk);
    AppendOk(s, t);
    forall c {:trigger Kept(s, s', t, c)} ensures Kept(s, s', t, c) { assert BlockOk(s, c); }
    forall c | c in s'.place && (c !in s.place || s.place[c] == Client || s.place[c] == Local(t)) ensures BlockOk(s', c) {
      assert BlockOk(s, c);
      if c !in s.place { NewBlock(s, t, c); }
    }
    AssembleLocal(s, s', t);
  }

  lemma NewBlock(s: State, t: nat, c: int)
    requires Inv(s) && t < |s.th| && s.local[t] == []
    requires c !in s.place && c in PopLocal(AppendGroup(s, t), t).place
    ensures BlockOk(PopLocal(AppendGroup(s, t), t), c)
  {
    var l := NewBlocks(s.brk);
    AppendOk(s, t);
    assert l[0] == s.brk && c in l;
    if c != s.brk { assert c in l[1..]; }
  }

  lemma TakeKeeps(s: State, t: nat)
    requires Inv(s) && t < |s.th| && s.th[t].pc == AllocCas && s.pool == s.th[t].seen
    ensures Inv(TakeGroup(s, t))
    ensures var b := s.pool.ptr; b in s.place && s.place[b] == Group(b) && TakeGroup(s, t).place[b] == Client
  {
    var s' := TakeGroup(s, t);
    assert ThreadOk(s, t) && LocalOk(s, t) && GroupOk(s, 0);
    var g := s.groups[0];
    var l := s.content[g];
    assert l[0] in l;
    TakeLocalOk(s, t);
    forall c {:trigger Kept(s, s', t, c)} ensures Kept(s, s', t, c) { TakeKept(s, t, c); }
    forall i {:trigger GroupOk(s', i)} | 0 <= i < |s'.groups| ensures GroupOk(s', i) {
      assert GroupOk(s, i + 1);
      GroupFrame(s, s', t, i + 1, i);
    }
    forall c {:trigger BlockOk(s', c)} ensures BlockOk(s', c) { TakeBlock(s, t, c); }
    Assemble(s, s', t);
  }

  lemma TakeBlock(s: State, t: nat, c: int)
    requires Inv(s) && t < |s.th| && s.th[t].pc == AllocCas && s.pool == s.th[t].seen
    ensures BlockOk(TakeGroup(s, t), c)
  {
    var s' := TakeGroup(s, t);
    assert ThreadOk(s, t) && LocalOk(s, t) && GroupOk(s, 0) && BlockOk(s, c);
    var l := s.content[s.groups[0]];
    if c in s.place && s.place[c].Group? && s.place[c].first != s.groups[0] {
      assert s.groups == [s.groups[0]] + s.groups[1..];
      assert s.place[c].first in s'.groups;
    }
    if c in l && c != l[0] { assert c in l[1..]; }
  }

  lemma TakeKept(s: State, t: nat, c: int)
    requires Inv(s) && t < |s.th| && s.th[t].pc == AllocCas && s.pool == s.th[t].seen
    ensures Kept(s, TakeGroup(s, t), t, c)
  {
    assert ThreadOk(s, t) && GroupOk(s, 0) && BlockOk(s, c);
    assert s.groups[0] !in s.groups[1..];
  }

  lemma TakeLocalOk(s: State, t: nat)
    requires Inv(s) && t < |s.th| && s.th[t].pc == AllocCas && s.pool == s.th[t].seen
    ensures LocalOk(TakeGroup(s, t), t)
  {
    var s' := TakeGroup(s, t);
    assert ThreadOk(s, t) && LocalOk(s, t) && GroupOk(s, 0);
    var l := s.content[s.groups[0]];
    assert LinkAt(s, l, 0);
    assert forall c :: c in l[1..] ==> c in l && c != l[0];
    forall i {:trigger LinkAt(s', l[1..], i)} | 0 <= i < |l[1..]| ensures LinkAt(s', l[1..], i) { assert LinkAt(s, l, i + 1); }
  }

  // ---------------------------------------------------------------- free

  lemma PushLocalOk(s: State, t: nat, b: int)
    requires Inv(s) && t < |s.th| && s.th[t].pc == Idle && b in s.place && s.place[b] == Client
    ensures LocalOk(PushLocal(s, t, b), t)
  {
    var s' := PushLocal(s, t, b);
    assert LocalOk(s, t) && ThreadOk(s, t) && BlockOk(s, b);
    var l := s.local[t];
    forall i {:trigger LinkAt(s', [b] + l, i)} | 0 <= i < |[b] + l| ensures LinkAt(s', [b] + l, i) {
      if i > 0 { assert LinkAt(s, l, i - 1) && l[i - 1] in l; }
    }
    forall c | c in [b] + l ensures c in s'.place && s'.place[c] == Local(t) { assert c == b || c in l; }
  }

  lemma PushKeeps(s: State, t: nat, b: int)
    requires Inv(s) && t < |s.th| && s.th[t].pc == Idle && b in s.place && s.place[b] == Client
    ensures Inv(PushLocal(s, t, b))
  {
    var s' := PushLocal(s, t, b);
    assert LocalOk(s, t) && ThreadOk(s, t);
    PushLocalOk(s, t, b);
    forall c {:trigger Kept(s, s', t, c)} ensures Kept(s, s', t, c) { assert BlockOk(s, c); }
    forall c | c in s'.place && (c !in s.place || s.place[c] == Client || s.place[c] == Local(t)) ensures BlockOk(s', c) {
      assert BlockOk(s, c);
    }
    assert forall c :: c in s'.next ==> c == b || c in s.next;
    AssembleLocal(s, s', t);
  }

  /** `ng->next_group` is written while the group is still part of the thread's own list. */
  lemma StoreKeeps(s: State, t: nat)
    requires Inv(s) && t < |s.th| && s.th[t].pc == FreeStore
    ensures Inv(Step(s, t, Go))
  {
    var s' := Step(s, t, Go);
    assert LocalOk(s, t) && ThreadOk(s, t);
    NthNext(s, t);
    var l := s.local[t];
    ChainSame(s, s', l);
    forall c {:trigger Kept(s, s', t, c)} ensures Kept(s, s', t, c) { assert BlockOk(s, c); }
    forall c | c in s'.place && (c !in s.place || s.place[c] == Client || s.place[c] == Local(t)) ensures BlockOk(s', c) {
      assert BlockOk(s, c);
    }
    AssembleLocal(s, s', t);
  }

  /** The lower half as a group of its own. */
  lemma GiveLow(s: State, t: nat)
    requires Inv(s) && t < |s.th| && s.th[t].pc == FreeCas && s.pool == s.th[t].seen
    ensures var s' := GiveGroup(s, t); var l := s.local[t];
            |l| == 2 * GROUP_SIZE && Chain(s', l[GROUP_SIZE..]) && Placed(s', l[GROUP_SIZE..], Group(l[GROUP_SIZE]))
  {
    var s' := GiveGroup(s, t);
    assert LocalOk(s, t) && ThreadOk(s, t);
    NthNext(s, t);
    var l := s.local[t];
    var low := l[GROUP_SIZE..];
    assert forall c :: c in low ==> c in l;
    forall i {:trigger LinkAt(s', low, i)} | 0 <= i < |low| ensures LinkAt(s', low, i) { assert LinkAt(s, l, i + GROUP_SIZE); }
  }

  lemma GiveLocalOk(s: State, t: nat)
    requires Inv(s) && t < |s.th| && s.th[t].pc == FreeCas && s.pool == s.th[t].seen
    ensures var s' := GiveGroup(s, t); var l := s.local[t];
            |l| == 2 * GROUP_SIZE && LocalOk(s', t) && Chain(s', l[GROUP_SIZE..]) && Placed(s', l[GROUP_SIZE..], Group(l[GROUP_SIZE]))
  {
    GiveLow(s, t);
    GiveUp(s, t);
  }

  /** The upper half stays as the local list. */
  lemma GiveUp(s: State, t: nat)
    requires Inv(s) && t < |s.th| && s.th[t].pc == FreeCas && s.pool == s.th[t].seen
    ensures LocalOk(GiveGroup(s, t), t)
  {
    var s' := GiveGroup(s, t);
    assert LocalOk(s, t) && ThreadOk(s, t);
    NthNext(s, t);
    var l := s.local[t];
    var up, low := l[..GROUP_SIZE], l[GROUP_SIZE..];
    assert forall c :: c in up ==> c in l && c !in low;
    forall i {:trigger LinkAt(s', up, i)} | 0 <= i < |up| ensures LinkAt(s', up, i) { assert LinkAt(s, l, i); }
  }

  lemma GiveKeeps(s: State, t: nat)
    requires Inv(s) && t < |s.th| && s.th[t].pc == FreeCas && s.pool == s.th[t].seen
    ensures Inv(GiveGroup(s, t))
  {
    var s' := GiveGroup(s, t);
    assert LocalOk(s, t) && ThreadOk(s, t);
    GiveLocalOk(s, t);
    NthNext(s, t);
    var g := s.local[t][GROUP_SIZE];
    assert BlockOk(s, g);
    forall i | 0 <= i < |s.groups| ensures s.groups[i] != g { assert GroupOk(s, i); assert s.groups[i] in s.content[s.groups[i]]; }
    forall c {:trigger Kept(s, s', t, c)} ensures Kept(s, s', t, c) { GiveKept(s, t, c); }
    forall i {:trigger GroupOk(s', i)} | 0 <= i < |s'.groups| ensures GroupOk(s', i) {
      if i > 0 { assert GroupOk(s, i - 1); GroupFrame(s, s', t, i - 1, i); }
    }
    forall c {:trigger BlockOk(s', c)} ensures BlockOk(s', c) { GiveBlock(s, t, c); }
    Assemble(s, s', t);
  }

  lemma GiveKept(s: State, t: nat, c: int)
    requires Inv(s) && t < |s.th| && s.th[t].pc == FreeCas && s.pool == s.th[t].seen
    ensures Kept(s, GiveGroup(s, t), t, c)
  {
    assert LocalOk(s, t) && ThreadOk(s, t) && BlockOk(s, c);
    NthNext(s, t);
    assert forall d :: d in s.local[t][GROUP_SIZE..] ==> d in s.local[t];
  }

  lemma GiveBlock(s: State, t: nat, c: int)
    requires Inv(s) && t < |s.th| && s.th[t].pc == FreeCas && s.pool == s.th[t].seen
    ensures BlockOk(GiveGroup(s, t), c)
  {
    var s' := GiveGroup(s, t);
    assert LocalOk(s, t) && ThreadOk(s, t) && BlockOk(s, c);
    GiveLocalOk(s, t);
    NthNext(s, t);
    var l := s.local[t];
    assert l == l[..GROUP_SIZE] + l[GROUP_SIZE..];
    if c in s.place && s.place[c].Group? { assert s.place[c].first != l[GROUP_SIZE] by { GroupOther(s, t, s.place[c].first); } }
  }

  lemma GroupOther(s: State, t: nat, g: int)
    requires Inv(s) && t < |s.th| && g in s.groups
    ensures g !in s.local[t]
  {
    assert LocalOk(s, t);
    var i :| 0 <= i < |s.groups| && s.groups[i] == g;
    assert GroupOk(s, i);
    assert s.content[g][0] in s.content[g];
  }

  // ---------------------------------------------------------------- every step

  lemma ReadKeeps(s: State, t: nat, T': Thread)
    requires Inv(s) && t < |s.th| && T'.head == s.th[t].head && ThreadOk(With(s, t, T'), t)
    ensures Inv(With(s, t, T'))
  {
    var s' := With(s, t, T');
    assert LocalOk(s, t);
    ChainSame(s, s', s.local[t]);
    forall c {:trigger Kept(s, s', t, c)} ensures Kept(s, s', t, c) { assert BlockOk(s, c); }
    forall c | c in s'.place && (c !in s.place || s.place[c] == Client || s.place[c] == Local(t)) ensures BlockOk(s', c) {
      assert BlockOk(s, c);
    }
    AssembleLocal(s, s', t);
  }

  /** The head of a thread names the top of its list. */
  lemma TopOfList(s: State, t: nat)
    requires t < |s.th| == |s.local| && LocalOk(s, t)
    ensures s.local[t] != [] ==> s.th[t].head.top == s.local[t][0] != NULL
  {
    if s.local[t] != [] { assert LinkAt(s, s.local[t], 0); }
  }

  lemma StepInv(s: State, t: nat, a: Act)
    requires Inv(s) && Enabled(s, t, a)
    ensures Inv(Step(s, t, a))
  {
    var T := s.th[t];
    assert LocalOk(s, t) && ThreadOk(s, t);
    match T.pc
    case Idle =>
      if a.Free? { PushKeeps(s, t, a.b); }
      else if T.head.top != NULL { PopKeeps(s, t); }
      else {
        TopOfList(s, t);
        ReadKeeps(s, t, T.(pc := AllocLoad));
      }
    case AllocLoad => if s.pool.ptr != NULL { ReadKeeps(s, t, T.(seen := s.pool, pc := AllocGroup)); } else { AppendKeeps(s, t); }
    case AllocGroup => ReadKeeps(s, t, T.(group := NextGroup(s, T.seen.ptr), pc := AllocCas));
    case AllocCas => if s.pool == T.seen { TakeKeeps(s, t); } else { ReadKeeps(s, t, T.(pc := AllocLoad)); }
    case FreeLoad => ReadKeeps(s, t, T.(seen := s.pool, pc := FreeStore));
    case FreeStore => StoreKeeps(s, t);
    case FreeCas => if s.pool == T.seen { GiveKeeps(s, t); } else { ReadKeeps(s, t, T.(pc := FreeLoad)); }
  }

  // ---------------------------------------------------------------- clients

  ghost function Clients(s: State): set<int> { set b | b in s.place && s.place[b] == Client }

  /** The blocks an `alloc` step hands out. */
  ghost predicate Hands(s: State, t: nat, a: Act, b: int)
    requires Enabled(s, t, a)
  {
    var T := s.th[t];
    || (T.pc == Idle && a.Alloc? && T.head.top != NULL && b == T.head.top)
    || (T.pc == AllocLoad && s.pool.ptr == NULL && b == s.brk)
    || (T.pc == AllocCas && s.pool == T.seen && b == T.seen.ptr)
  }

  /** A step hands out at most one block, which no client held; only `free` takes one from a client. */
  lemma StepClients(s: State, t: nat, a: Act)
    requires Inv(s) && Enabled(s, t, a)
    ensures var s' := Step(s, t, a);
            if s.th[t].pc == Idle && a.Free? then a.b in Clients(s) && Clients(s') == Clients(s) - {a.b}
            else Clients(s') == Clients(s) || exists b :: Hands(s, t, a, b) && b !in Clients(s) && Clients(s') == Clients(s) + {b}
  {
    var T := s.th[t];
    var s' := Step(s, t, a);
    assert LocalOk(s, t) && ThreadOk(s, t);
    if T.pc == Idle && a.Alloc? && T.head.top != NULL {
      PopKeeps(s, t);
      assert Hands(s, t, a, T.head.top) && Clients(s') == Clients(s) + {T.head.top};
    } else if T.pc == AllocLoad && s.pool.ptr == NULL {
      AppendKeeps(s, t);
      assert NewBlocks(s.brk)[0] in NewBlocks(s.brk);
      AppendClients(s, t);
      assert Hands(s, t, a, s.brk);
    } else if T.pc == AllocCas && s.pool == T.seen {
      TakeKeeps(s, t);
      TakeClients(s, t);
      assert Hands(s, t, a, T.seen.ptr);
    } else if T.pc == FreeCas && s.pool == T.seen {
      GiveClients(s, t);
    }
  }

  lemma AppendClients(s: State, t: nat)
    requires Inv(s) && t < |s.th| && s.local[t] == []
    ensures Clients(PopLocal(AppendGroup(s, t), t)) == Clients(s) + {s.brk} && s.brk !in Clients(s)
  {
    var s' := PopLocal(AppendGroup(s, t), t);
    assert BlockOk(s, s.brk);
    forall b ensures b in Clients(s') <==> b in Clients(s) + {s.brk} { assert BlockOk(s, b); }
  }

  lemma TakeClients(s: State, t: nat)
    requires Inv(s) && t < |s.th| && s.th[t].pc == AllocCas && s.pool == s.th[t].seen
    ensures Clients(TakeGroup(s, t)) == Clients(s) + {s.pool.ptr} && s.pool.ptr !in Clients(s)
  {
    assert ThreadOk(s, t) && GroupOk(s, 0);
    var l := s.content[s.groups[0]];
    assert l[0] in l;
    assert forall c :: c in l[1..] ==> c in l;
    var s' := TakeGroup(s, t);
    forall b ensures b in Clients(s') <==> b in Clients(s) + {s.pool.ptr} {}
  }

  lemma GiveClients(s: State, t: nat)
    requires Inv(s) && t < |s.th| && s.th[t].pc == FreeCas && s.pool == s.th[t].seen
    ensures Clients(GiveGroup(s, t)) == Clients(s)
  {
    assert LocalOk(s, t) && ThreadOk(s, t);
    var s' := GiveGroup(s, t);
    assert forall d :: d in s.local[t][GROUP_SIZE..] ==> d in s.local[t];
    forall b ensures b in Clients(s') <==> b in Clients(s) {}
  }

  // ---------------------------------------------------------------- every run

  datatype Sched = Sched(tid: nat, act: Act)

  function Exec(s: State, run: seq<Sched>): State {
    if run == [] then s
    else
      var p := Exec(s, run[..|run| - 1]);
      var x := run[|run| - 1];
      if Enabled(p, x.tid, x.act) then Step(p, x.tid, x.act) else p
  }

  lemma {:induction false} RunInv(s: State, run: seq<Sched>)
    requires Init(s)
    ensures Inv(Exec(s, run)) && s.brk <= Exec(s, run).brk
    ensures forall b :: b in Exec(s, run).place <==> s.brk <= b < Exec(s, run).brk
    decreases |run|
  {
    if run == [] {
      forall t {:trigger LocalOk(s, t)} | 0 <= t < |s.th| ensures LocalOk(s, t) {}
      forall t {:trigger ThreadOk(s, t)} | 0 <= t < |s.th| ensures ThreadOk(s, t) {}
    } else {
      RunInv(s, run[..|run| - 1]);
      var p := Exec(s, run[..|run| - 1]);
      var x := run[|run| - 1];
      if Enabled(p, x.tid, x.act) {
        StepInv(p, x.tid, x.act);
        StepDomain(p, x.tid, x.act, s.brk);
      }
    }
  }

  /** Blocks come into being with `appendBlockGroup` and never disappear. */
  lemma StepDomain(s: State, t: nat, a: Act, lo: int)
    requires Inv(s) && Enabled(s, t, a) && lo <= s.brk
    requires forall b :: b in s.place <==> lo <= b < s.brk
    ensures var s' := Step(s, t, a); lo <= s'.brk && forall b :: b in s'.place <==> lo <= b < s'.brk
  {
    var T := s.th[t];
    var s' := Step(s, t, a);
    assert LocalOk(s, t) && ThreadOk(s, t);
    if T.pc == AllocLoad && s.pool.ptr == NULL {
      AppendDomain(s, t, lo);
    } else if T.pc == AllocCas && s.pool == T.seen {
      assert GroupOk(s, 0);
      var l := s.content[s.groups[0]];
      assert l[0] in l && forall c :: c in l[1..] ==> c in l;
    } else if T.pc == FreeCas && s.pool == T.seen {
      assert forall d :: d in s.local[t][GROUP_SIZE..] ==> d in s.local[t];
    } else if T.pc == Idle && a.Alloc? && T.head.top != NULL {
      assert s.local[t][0] in s.local[t];
    }
  }

  lemma AppendDomain(s: State, t: nat, lo: int)
    requires t < |s.th| == |s.local| && lo <= s.brk && forall b :: b in s.place <==> lo <= b < s.brk
    ensures forall b :: b in PopLocal(AppendGroup(s, t), t).place <==> lo <= b < s.brk + GROUP_SIZE
  {
    var l := NewBlocks(s.brk);
    assert forall i :: 0 <= i < |l| ==> l[i] == s.brk + i;
    forall b | s.brk <= b < s.brk + GROUP_SIZE ensures b in l { assert l[b - s.brk] == b; }
    assert l[0] == s.brk;
  }

  /** In no local list but that of t, at no second index, and in no group but g. */
  ghost predicate OnlyAt(s: State, b: int, p: Place) {
    && (forall u, i :: 0 <= u < |s.local| && 0 <= i < |s.local[u]| && s.local[u][i] == b ==> p == Local(u))
    && (forall i, k :: 0 <= i < |s.groups| && 0 <= k < |ContentOf(s, s.groups[i])| && ContentOf(s, s.groups[i])[k] == b ==> p == Group(s.groups[i]))
  }

  lemma OnlyAtPlace(s: State, b: int)
    requires Inv(s) && b in s.place
    ensures OnlyAt(s, b, s.place[b])
  {
    forall u, i | 0 <= u < |s.local| && 0 <= i < |s.local[u]| && s.local[u][i] == b ensures s.place[b] == Local(u) { assert LocalOk(s, u); }
    forall i, k | 0 <= i < |s.groups| && 0 <= k < |ContentOf(s, s.groups[i])| && ContentOf(s, s.groups[i])[k] == b
      ensures s.place[b] == Group(s.groups[i])
    {
      assert GroupOk(s, i);
    }
  }

  /**
   * Conservation, in every run of any number of threads: each block ever made is with a client, or in exactly one local list,
   * or in exactly one group of the global stack; the `next` fields hold each list together, `count` and `nth` describe it,
   * and every group has exactly GROUP_SIZE blocks.
   */
  lemma Conservation(s: State, run: seq<Sched>)
    requires Init(s)
    ensures var z := Exec(s, run);
            && (forall b :: s.brk <= b < z.brk ==> b in z.place && BlockOk(z, b) && OnlyAt(z, b, z.place[b]))
            && |z.local| == |z.th|
            && (forall t :: 0 <= t < |z.th| ==> Chain(z, z.local[t]) && HeadOk(z.th[t].head, z.local[t]))
            && (forall i :: 0 <= i < |z.groups| ==> |ContentOf(z, z.groups[i])| == GROUP_SIZE && Chain(z, ContentOf(z, z.groups[i])))
  {
    RunInv(s, run);
    var z := Exec(s, run);
    forall b | s.brk <= b < z.brk ensures b in z.place && BlockOk(z, b) && OnlyAt(z, b, z.place[b]) { OnlyAtPlace(z, b); }
    forall t | 0 <= t < |z.th| ensures Chain(z, z.local[t]) && HeadOk(z.th[t].head, z.local[t]) { assert LocalOk(z, t); }
    forall i | 0 <= i < |z.groups| ensures |ContentOf(z, z.groups[i])| == GROUP_SIZE && Chain(z, ContentOf(z, z.groups[i])) {
      assert GroupOk(z, i);
    }
  }
}
