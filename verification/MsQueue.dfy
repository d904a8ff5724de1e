/** The lock-free queue of pkg/queue/queue_ms.go as a step machine.

    Every atomic load, compare-and-swap and counter add is one step of one of
    arbitrarily many threads. A node address is an index into `heap`; allocation
    appends, so an address is never reused while the machine runs. */
module MsQueue {

  type Ref = nat

  datatype Ptr = Nil | To(ref: Ref)

  datatype Cell = NoValue | Holds(v: int)

  datatype Node = Node(value: Cell, next: Ptr)

  /** Where a thread stands; the comments give the source line it executes next. */
  datatype Pc =
    | Idle
    | EnqLoadTail(node: Ref)                                // 50
    | EnqLoadNext(node: Ref, tail: Ref)                     // 51
    | EnqRecheck(node: Ref, tail: Ref, next: Ptr)           // 54, 55
    | EnqLink(node: Ref, tail: Ref)                         // 56
    | EnqSwing(node: Ref, tail: Ref)                        // 57
    | EnqCount(node: Ref)                                   // 58
    | EnqHelp(node: Ref, tail: Ref, seen: Ref)              // 63
    | DrainCheck                                            // IsEmpty at the head of a drain loop
    | DeqLoadHead                                           // 72
    | DeqLoadTail(head: Ref)                                // 73
    | DeqLoadNext(head: Ref, tail: Ref)                     // 74
    | DeqRecheck(head: Ref, tail: Ref, next: Ptr)           // 77-79
    | DeqHelp(tail: Ref, seen: Ref)                         // 83
    | DeqReadValue(head: Ref, next: Ptr)                    // 85
    | DeqUnlink(head: Ref, seen: Ref, value: int)           // 86
    | DeqCount(value: int)                                  // 87
    | Panicked                                              // nil dereference on line 85

  /** `draining` marks a thread inside a loop that dequeues until `IsEmpty`. */
  datatype Thread = Thread(pc: Pc, draining: bool)

  datatype State = State(heap: seq<Node>, head: Ref, tail: Ref, size: int, threads: seq<Thread>)

  datatype Action =
    | CallEnqueue(tid: nat, v: int)
    | CallDequeue(tid: nat)
    | CallDrain(tid: nat)
    | Tick(tid: nat)

  function Init(threads: nat): State {
    State([Node(NoValue, Nil)], 0, 0, 0, seq(threads, _ => Thread(Idle, false)))
  }

  function At(heap: seq<Node>, r: Ref): Node {
    if r < |heap| then heap[r] else Node(NoValue, Nil)
  }

  function SetNext(heap: seq<Node>, r: Ref, p: Ptr): seq<Node> {
    if r < |heap| then heap[r := heap[r].(next := p)] else heap
  }

  function Goto(s: State, i: nat, pc: Pc): State
    requires i < |s.threads|
  {
    s.(threads := s.threads[i := s.threads[i].(pc := pc)])
  }

  function Return(s: State, i: nat): State
    requires i < |s.threads|
  {
    Goto(s, i, if s.threads[i].draining then DrainCheck else Idle)
  }

  function Step(s: State, a: Action): State {
    if a.tid >= |s.threads| then s else
    match a
    case Tick(i) => Execute(s, i)
    case CallEnqueue(i, v) =>
      if s.threads[i].pc.Idle?
      then Goto(s, i, EnqLoadTail(|s.heap|)).(heap := s.heap + [Node(Holds(v), Nil)]) else s
    case CallDequeue(i) =>
      if s.threads[i].pc.Idle? then s.(threads := s.threads[i := Thread(DeqLoadHead, false)]) else s
    case CallDrain(i) =>
      if s.threads[i].pc.Idle? then s.(threads := s.threads[i := Thread(DrainCheck, true)]) else s
  }

  function Execute(s: State, i: nat): State
    requires i < |s.threads|
  {
    match s.threads[i].pc
    case Idle => s
    case Panicked => s
    case EnqLoadTail(n) => Goto(s, i, EnqLoadNext(n, s.tail))
    case EnqLoadNext(n, tl) => Goto(s, i, EnqRecheck(n, tl, At(s.heap, tl).next))
    case EnqRecheck(n, tl, nx) =>
      Goto(s, i, if tl != s.tail then EnqLoadTail(n) else if nx.Nil? then EnqLink(n, tl) else EnqHelp(n, tl, nx.ref))
    case EnqLink(n, tl) =>
      if At(s.heap, tl).next.Nil? then Goto(s, i, EnqSwing(n, tl)).(heap := SetNext(s.heap, tl, To(n)))
      else Goto(s, i, EnqLoadTail(n))
    case EnqSwing(n, tl) => Goto(s, i, EnqCount(n)).(tail := if s.tail == tl then n else s.tail)
    case EnqCount(_) => Return(s, i).(size := s.size + 1)
    case EnqHelp(n, tl, nx) => Goto(s, i, EnqLoadTail(n)).(tail := if s.tail == tl then nx else s.tail)
    case DrainCheck =>
      if s.size == 0 then s.(threads := s.threads[i := Thread(Idle, false)]) else Goto(s, i, DeqLoadHead)
    case DeqLoadHead => Goto(s, i, DeqLoadTail(s.head))
    case DeqLoadTail(hd) => Goto(s, i, DeqLoadNext(hd, s.tail))
    case DeqLoadNext(hd, tl) => Goto(s, i, DeqRecheck(hd, tl, At(s.heap, hd).next))
    case DeqRecheck(hd, tl, nx) =>
      if hd != s.head then Goto(s, i, DeqLoadHead)
      else if hd != tl then Goto(s, i, DeqReadValue(hd, nx))
      else if nx.Nil? then Return(s, i)
      else Goto(s, i, DeqHelp(tl, nx.ref))
    case DeqHelp(tl, nx) => Goto(s, i, DeqLoadHead).(tail := if s.tail == tl then nx else s.tail)
    case DeqReadValue(hd, nx) =>
      if nx.Nil? || At(s.heap, nx.ref).value.NoValue? then Goto(s, i, Panicked)
      else Goto(s, i, DeqUnlink(hd, nx.ref, At(s.heap, nx.ref).value.v))
    case DeqUnlink(hd, nx, v) =>
      if s.head == hd then Goto(s, i, DeqCount(v)).(head := nx) else Goto(s, i, DeqLoadHead)
    case DeqCount(_) => Return(s, i).(size := s.size - 1)
  }

  /** The state after a schedule: any interleaving of any calls. */
  function Run(threads: nat, schedule: seq<Action>): State {
    if schedule == [] then Init(threads)
    else Step(Run(threads, schedule[..|schedule| - 1]), schedule[|schedule| - 1])
  }

  /** The addresses met by following `next` from `p`, for at most `fuel` nodes. */
  function Walk(heap: seq<Node>, p: Ptr, fuel: nat): seq<Ref>
    decreases fuel
  {
    if fuel == 0 || p.Nil? then [] else [p.ref] + Walk(heap, At(heap, p.ref).next, fuel - 1)
  }

  function Val(heap: seq<Node>, r: Ref): int {
    match At(heap, r).value
    case Holds(v) => v
    case NoValue => 0
  }

  function Vals(heap: seq<Node>, refs: seq<Ref>): seq<int> {
    seq(|refs|, i requires 0 <= i < |refs| => Val(heap, refs[i]))
  }

  /** The values physically queued: those of the nodes behind the head node. */
  function Queued(s: State): seq<int> {
    Vals(s.heap, Walk(s.heap, At(s.heap, s.head).next, |s.heap|))
  }

  /** +1 for an element already linked but not yet counted, -1 for one already
      unlinked but still counted. */
  function Lag(t: Thread): int {
    match t.pc
    case EnqSwing(_, _) => 1
    case EnqCount(_) => 1
    case DeqCount(_) => -1
    case _ => 0
  }

  function LagSum(threads: seq<Thread>): int {
    if threads == [] then 0 else LagSum(threads[..|threads| - 1]) + Lag(threads[|threads| - 1])
  }
}
