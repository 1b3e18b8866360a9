/**
 * BlockPool.hpp without glibc mode, as a machine: thread-local lists of blocks and a global stack of groups under a counted
 * pointer. A step makes at most one access to the shared pool word or to a `next_group` field.
 */
module BPMachine {
  const GROUP_SIZE := 8

  const NULL := 0

  /** cptr: a pointer and its serial number. */
  datatype Word = Word(ptr: int, sn: nat)

  datatype Head = Head(top: int, nth: int, count: int)

  datatype PC = Idle | AllocLoad | AllocGroup | AllocCas | FreeLoad | FreeStore | FreeCas

  datatype Thread = Thread(head: Head, pc: PC, seen: Word, group: int)

  /** The place of a block: with a client, in a thread's list, or in the group that starts with `first`. */
  datatype Place = Client | Local(tid: nat) | Group(first: int)

  /** `next` and `nextGroup` are the two fields of each block. History: the lists and groups as sequences, and where each block is. */
  datatype State = State(next: map<int, int>, nextGroup: map<int, int>, pool: Word, brk: int, th: seq<Thread>,
                         local: seq<seq<int>>, groups: seq<int>, content: map<int, seq<int>>, place: map<int, Place>)

  datatype Act = Alloc | Free(b: int) | Go

  function Next(s: State, b: int): int { if b in s.next then s.next[b] else NULL }
  function NextGroup(s: State, b: int): int { if b in s.nextGroup then s.nextGroup[b] else NULL }
  function ContentOf(s: State, g: int): seq<int> { if g in s.content then s.content[g] else [] }

  function SetAll(m: map<int, Place>, bs: seq<int>, p: Place): map<int, Place> {
    map b | b in m.Keys + (set x | x in bs) :: if b in bs then p else m[b]
  }

  /** `alloc` with blocks in the local list: lines 148 to 154. */
  function PopLocal(s: State, t: nat): State
    requires t < |s.th| == |s.local|
  {
    var h := s.th[t].head;
    var b := h.top;
    s.(th := s.th[t := s.th[t].(head := Head(Next(s, b), if b == h.nth then NULL else h.nth, h.count - 1), pc := Idle)],
       local := s.local[t := if s.local[t] == [] then [] else s.local[t][1..]],
       place := s.place[b := Client])
  }

  function NewBlocks(brk: int): seq<int> { seq(GROUP_SIZE, i => brk + i) }

  function Extend(m: map<int, int>, brk: int, f: int -> int): map<int, int> {
    map b | b in m.Keys + (set x | x in NewBlocks(brk)) :: if b in NewBlocks(brk) then f(b) else m[b]
  }

  /** `appendBlockGroup`: a zeroed array of blocks becomes the local list. */
  function AppendGroup(s: State, t: nat): State
    requires t < |s.th| == |s.local|
  {
    var e := s.brk;
    s.(next := Extend(s.next, e, i => if i == e + GROUP_SIZE - 1 then NULL else i + 1),
       nextGroup := Extend(s.nextGroup, e, i => NULL),
       brk := e + GROUP_SIZE,
       th := s.th[t := s.th[t].(head := Head(e, e, GROUP_SIZE))],
       local := s.local[t := NewBlocks(e)],
       place := SetAll(s.place, NewBlocks(e), Local(t)))
  }

  /** Lines 161 to 165: the group at the top of the global stack becomes the local list, less its first block. */
  function TakeGroup(s: State, t: nat): State
    requires t < |s.th| == |s.local|
  {
    var T := s.th[t];
    var b := T.seen.ptr;
    var c := ContentOf(s, b);
    s.(pool := Word(T.group, T.seen.sn + 1),
       th := s.th[t := T.(head := T.head.(top := Next(s, b), count := GROUP_SIZE - 1), pc := Idle)],
       groups := if s.groups == [] then [] else s.groups[1..],
       local := s.local[t := if c == [] then [] else c[1..]],
       place := SetAll(s.place, if c == [] then [] else c[1..], Local(t))[b := Client])
  }

  /** `free` up to line 206. */
  function PushLocal(s: State, t: nat, b: int): State
    requires t < |s.th| == |s.local|
  {
    var h := s.th[t].head;
    var n := h.count + 1;
    s.(next := s.next[b := h.top],
       th := s.th[t := s.th[t].(head := Head(b, if n == GROUP_SIZE + 1 then b else h.nth, n), pc := if n == GROUP_SIZE * 2 then FreeLoad else Idle)],
       local := s.local[t := [b] + s.local[t]],
       place := s.place[b := Local(t)])
  }

  /** Lines 211 and 219 to 221: the lower half of the list becomes the top group of the global stack. */
  function GiveGroup(s: State, t: nat): State
    requires t < |s.th| == |s.local|
  {
    var T := s.th[t];
    var g := Next(s, T.head.nth);
    var l := s.local[t];
    var low := if |l| == 2 * GROUP_SIZE then l[GROUP_SIZE..] else [];
    s.(pool := Word(g, T.seen.sn + 1),
       next := s.next[T.head.nth := NULL],
       th := s.th[t := T.(head := T.head.(nth := NULL, count := T.head.count - GROUP_SIZE), pc := Idle)],
       groups := [g] + s.groups,
       content := s.content[g := low],
       local := s.local[t := if |l| == 2 * GROUP_SIZE then l[..GROUP_SIZE] else l],
       place := SetAll(s.place, low, Group(g)))
  }

  function With(s: State, t: nat, T: Thread): State
    requires t < |s.th|
  {
    s.(th := s.th[t := T])
  }

  /** A client frees only a block it holds. */
  predicate Enabled(s: State, t: nat, a: Act) {
    && t < |s.th| == |s.local|
    && if s.th[t].pc == Idle then a.Alloc? || (a.Free? && a.b in s.place && s.place[a.b] == Client) else a.Go?
  }

  function Step(s: State, t: nat, a: Act): State
    requires Enabled(s, t, a)
  {
    var T := s.th[t];
    match T.pc
    case Idle =>
      if a.Free? then PushLocal(s, t, a.b)
      else if T.head.top != NULL then PopLocal(s, t)
      else With(s, t, T.(pc := AllocLoad))
    case AllocLoad =>
      if s.pool.ptr != NULL then With(s, t, T.(seen := s.pool, pc := AllocGroup))
      else PopLocal(AppendGroup(s, t), t)
    case AllocGroup => With(s, t, T.(group := NextGroup(s, T.seen.ptr), pc := AllocCas))
    case AllocCas => if s.pool == T.seen then TakeGroup(s, t) else With(s, t, T.(pc := AllocLoad))
    case FreeLoad => With(s, t, T.(seen := s.pool, pc := FreeStore))
    case FreeStore => With(s.(nextGroup := s.nextGroup[Next(s, T.head.nth) := T.seen.ptr]), t, T.(pc := FreeCas))
    case FreeCas => if s.pool == T.seen then GiveGroup(s, t) else With(s, t, T.(pc := FreeLoad))
  }

  ghost predicate Init(s: State) {
    && s.next == map[] && s.nextGroup == map[] && s.pool == Word(NULL, 0) && s.brk > 0
    && |s.local| == |s.th| && (forall t :: 0 <= t < |s.th| ==> s.th[t].head == Head(NULL, NULL, 0) && s.th[t].pc == Idle && s.local[t] == [])
    && s.groups == [] && s.content == map[] && s.place == map[]
  }
}
