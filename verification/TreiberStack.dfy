/** The lock-free stack of pkg/stack/stack_lf.go as a step machine. As for the queue,
    every atomic access is one step of one of arbitrarily many threads and an
    address is never reused. */
module TreiberStack {

  type Ref = nat

  datatype Ptr = Nil | To(ref: Ref)

  datatype Node = Node(value: int, next: Ptr)

  /** Where a thread stands; the comments give the source line it executes next. */
  datatype Pc =
    | Idle
    | PushLoad(item: Ref)              // 67
    | PushStore(item: Ref, seen: Ptr)  // 68, a write to memory nobody else can see yet
    | PushCas(item: Ref, seen: Ptr)    // 70
    | PushDone(item: Ref)              // 71
    | PopLoad                          // 44
    | PopNext(node: Ref)               // 49
    | PopCas(node: Ref, next: Ptr)     // 51
    | PopDone(node: Ref)               // 52, 54

  /** `len` is a 64-bit counter. */
  datatype State = State(heap: seq<Node>, top: Ptr, len: nat, threads: seq<Pc>)

  const WORD: nat := 0x1_0000_0000_0000_0000

  function Up(len: nat): nat {
    if len + 1 == WORD then 0 else len + 1
  }

  function Down(len: nat): nat {
    if len == 0 then WORD - 1 else len - 1
  }

  datatype Action = CallPush(tid: nat, v: int) | CallPop(tid: nat) | Tick(tid: nat)

  function Init(threads: nat): State {
    State([], Nil, 0, seq(threads, _ => Idle))
  }

  function At(heap: seq<Node>, r: Ref): Node {
    if r < |heap| then heap[r] else Node(0, Nil)
  }

  function SetNext(heap: seq<Node>, r: Ref, p: Ptr): seq<Node> {
    if r < |heap| then heap[r := heap[r].(next := p)] else heap
  }

  function Goto(s: State, i: nat, pc: Pc): State
    requires i < |s.threads|
  {
    s.(threads := s.threads[i := pc])
  }

  function Step(s: State, a: Action): State {
    if a.tid >= |s.threads| then s else
    match a
    case Tick(i) => Execute(s, i)
    case CallPush(i, v) =>
      if s.threads[i].Idle? then Goto(s, i, PushLoad(|s.heap|)).(heap := s.heap + [Node(v, Nil)]) else s
    case CallPop(i) => if s.threads[i].Idle? then Goto(s, i, PopLoad) else s
  }

  function Execute(s: State, i: nat): State
    requires i < |s.threads|
  {
    match s.threads[i]
    case Idle => s
    case PushLoad(n) => Goto(s, i, PushStore(n, s.top))
    case PushStore(n, tp) => Goto(s, i, PushCas(n, tp)).(heap := SetNext(s.heap, n, tp))
    case PushCas(n, tp) =>
      if s.top == tp then Goto(s, i, PushDone(n)).(top := To(n)) else Goto(s, i, PushLoad(n))
    case PushDone(_) => Goto(s, i, Idle).(len := Up(s.len))
    case PopLoad => if s.top.Nil? then Goto(s, i, Idle) else Goto(s, i, PopNext(s.top.ref))
    case PopNext(tp) => Goto(s, i, PopCas(tp, At(s.heap, tp).next))
    case PopCas(tp, nx) =>
      if s.top == To(tp) then Goto(s, i, PopDone(tp)).(top := nx) else Goto(s, i, PopLoad)
    case PopDone(_) => Goto(s, i, Idle).(len := Down(s.len))
  }

  function Run(threads: nat, schedule: seq<Action>): State {
    if schedule == [] then Init(threads)
    else Step(Run(threads, schedule[..|schedule| - 1]), schedule[|schedule| - 1])
  }

  /** The addresses met by following `next` from `p`, for at most `fuel` nodes. */
  function Walk(heap: seq<Node>, p: Ptr, fuel: nat): seq<Ref>
    decreases fuel
  {
    if fuel == 0 || p.Nil? then [] else [p.ref] + Walk(heap, At(heap, p.ref).next, fuel - 1)
  }

  function Vals(heap: seq<Node>, refs: seq<Ref>): seq<int> {
    seq(|refs|, i requires 0 <= i < |refs| => At(heap, refs[i]).value)
  }

  /** What a thread still owes the counter. */
  function Lag(pc: Pc): int {
    match pc
    case PushDone(_) => 1
    case PopDone(_) => -1
    case _ => 0
  }

  function LagSum(threads: seq<Pc>): int {
    if threads == [] then 0 else LagSum(threads[..|threads| - 1]) + Lag(threads[|threads| - 1])
  }

  /** The values physically stacked, top first. */
  function Stacked(s: State): seq<int> {
    Vals(s.heap, Walk(s.heap, s.top, |s.heap|))
  }
}
