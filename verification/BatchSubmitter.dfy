/** submitter_batch.go: how many completions the event loop waits for. */
module BatchSubmitter {

  const WAIT_FOR: seq<nat> :=
    [1, 32, 64, 96, 128, 256, 384, 512, 768, 1024, 1536, 2048, 3072, 4096, 5120, 6144, 7168, 8192, 10240]

  lemma TableIncreases(i: nat, j: nat)
    requires i < j < |WAIT_FOR|
    ensures WAIT_FOR[i] < WAIT_FOR[j]
    decreases j
  {
    if i + 1 < j { TableIncreases(i, j - 1); }
  }

  /** What the ring answers to a submission: EAGAIN, EINTR and ETIME are skippable. */
  datatype Answer = Done | Skippable | Failed

  datatype Event = Submit(answer: Answer) | Advance(n: nat)

  /** `level` after an event. */
  function Next(level: nat, e: Event): nat {
    match e
    case Submit(answer) => if answer.Skippable? && level > 0 then level - 1 else level
    case Advance(n) => if n < WAIT_FOR[1] then level else Reached(n, |WAIT_FOR| - 1)
  }

  /** The greatest level not above `i` whose entry is at most `n`, and at least 1. */
  function Reached(n: nat, i: nat): (level: nat)
    requires i < |WAIT_FOR|
  {
    if i <= 1 || WAIT_FOR[i] <= n then i else Reached(n, i - 1)
  }

  /** `Reached` is the largest entry not above `n`, for every `n` from 32 on. */
  lemma {:induction false} ReachedIsLargest(n: nat, i: nat, j: nat)
    requires 1 <= i < |WAIT_FOR| && n >= WAIT_FOR[1] && j <= i
    ensures 1 <= Reached(n, i) <= i && WAIT_FOR[Reached(n, i)] <= n
    ensures j <= Reached(n, i) <==> WAIT_FOR[j] <= n
    decreases i
  {
    if i > 1 && WAIT_FOR[i] > n {
      ReachedIsLargest(n, i - 1, if j < i then j else 1);
    } else if j < i {
      TableIncreases(j, i);
    }
  }

  function Run(level: nat, events: seq<Event>): nat {
    if events == [] then level else Next(Run(level, events[..|events| - 1]), events[|events| - 1])
  }

  /** How many of the events are skippable submissions. */
  function Skips(events: seq<Event>): nat {
    if events == [] then 0
    else Skips(events[..|events| - 1]) + if events[|events| - 1] == Submit(Skippable) then 1 else 0
  }

  /** Between two advances of 32 or more, whatever else happens, the level goes down by one for
      every skippable submission until it is 0, and is changed by nothing else. */
  lemma {:induction false} OnlySkipsLower(level: nat, events: seq<Event>)
    requires forall i :: 0 <= i < |events| && events[i].Advance? ==> events[i].n < 32
    ensures Run(level, events) == if Skips(events) >= level then 0 else level - Skips(events)
  {
    if events != [] { OnlySkipsLower(level, events[..|events| - 1]); }
  }

  /** As many skippable submissions in a row as the level, or more, bring it down to 0. */
  lemma {:induction false} SkippablesReset(level: nat, events: seq<Event>)
    requires forall i :: 0 <= i < |events| ==> events[i] == Submit(Skippable)
    ensures Run(level, events) == if |events| >= level then 0 else level - |events|
  {
    if events != [] { SkippablesReset(level, events[..|events| - 1]); }
  }

  /** An advance of 32 or more sets the level, whatever it was. */
  lemma AdvanceSets(level: nat, before: seq<Event>, n: nat, after: seq<Event>)
    requires n >= 32 && forall i :: 0 <= i < |after| && after[i].Advance? ==> after[i].n < 32
    ensures var reached := Run(level, before + [Advance(n)]);
            && 1 <= reached < |WAIT_FOR| && (forall j :: 0 <= j < |WAIT_FOR| ==> (j <= reached <==> WAIT_FOR[j] <= n))
            && Run(level, before + [Advance(n)] + after) == if Skips(after) >= reached then 0 else reached - Skips(after)
  {
    assert (before + [Advance(n)])[..|before|] == before;
    forall j | 0 <= j < |WAIT_FOR| ensures j <= Reached(n, |WAIT_FOR| - 1) <==> WAIT_FOR[j] <= n {
      ReachedIsLargest(n, |WAIT_FOR| - 1, j);
    }
    RunJoins(level, before + [Advance(n)], after);
    OnlySkipsLower(Run(level, before + [Advance(n)]), after);
  }

  lemma {:induction false} RunJoins(level: nat, a: seq<Event>, b: seq<Event>)
    ensures Run(level, a + b) == Run(Run(level, a), b)
    decreases b
  {
    if b == [] {
      assert a + b == a;
    } else {
      assert (a + b)[..|a + b| - 1] == a + b[..|b| - 1];
      RunJoins(level, a, b[..|b| - 1]);
    }
  }

  class Submitter {
    var waitForIndex: nat
    var waitFor: nat

    ghost predicate Valid()
      reads this
    {
      waitForIndex < |WAIT_FOR| && waitFor == WAIT_FOR[waitForIndex]
    }

    /** submitter_batch.go:92-100 */
    constructor ()
      ensures Valid() && waitForIndex == 0
    {
      waitForIndex, waitFor := 0, WAIT_FOR[0];
    }

    /** submitter_batch.go:56-73 */
    method SubmitRequests(answer: Answer) returns (result: Answer)
      requires Valid()
      modifies this
      ensures Valid() && waitForIndex == Next(old(waitForIndex), Submit(answer)) && result == answer
      ensures !answer.Skippable? ==> waitForIndex == old(waitForIndex) && waitFor == old(waitFor)
      ensures answer.Skippable? ==> waitForIndex == if old(waitForIndex) == 0 then 0 else old(waitForIndex) - 1
    {
      if answer.Skippable? {
        if waitForIndex != 0 {
          waitForIndex := waitForIndex - 1;
          waitFor := WAIT_FOR[waitForIndex];
        }
        return Skippable;
      }
      return answer;
    }

    /** submitter_batch.go:75-90 */
    method AdvanceBy(n: nat)
      requires Valid()
      modifies this
      ensures Valid() && waitForIndex == Next(old(waitForIndex), Advance(n))
      ensures n < 32 ==> waitForIndex == old(waitForIndex)
      ensures n >= 32 ==> waitFor <= n && forall j :: waitForIndex < j < |WAIT_FOR| ==> WAIT_FOR[j] > n
    {
      var index := 1;
      while index < |WAIT_FOR|
        invariant 1 <= index <= |WAIT_FOR|
        invariant waitForIndex == if index == 1 then old(waitForIndex) else index - 1
        invariant index > 1 ==> WAIT_FOR[index - 1] <= n
      {
        if WAIT_FOR[index] > n { break; }
        waitForIndex := index;
        index := index + 1;
      }
      waitFor := WAIT_FOR[waitForIndex];
      if n >= 32 {
        assert index > 1;
        ReachedIsLargest(n, |WAIT_FOR| - 1, index - 1);
        if index < |WAIT_FOR| { ReachedIsLargest(n, |WAIT_FOR| - 1, index); }
        forall j | waitForIndex < j < |WAIT_FOR| ensures WAIT_FOR[j] > n {
          ReachedIsLargest(n, |WAIT_FOR| - 1, j);
        }
      } else if index > 1 {
        if index > 2 { TableIncreases(1, index - 1); }
        assert false;
      }
    }
  }

  /** Every run: the level stays in the table, `waitFor` is its entry, and both follow `Run`. */
  method Drive(s: Submitter, events: seq<Event>)
    requires s.Valid()
    modifies s
    ensures s.Valid() && s.waitForIndex == Run(old(s.waitForIndex), events)
  {
    ghost var level := s.waitForIndex;
    for i := 0 to |events|
      invariant s.Valid() && s.waitForIndex == Run(level, events[..i])
    {
      assert events[..i + 1][..i] == events[..i];
      match events[i] {
        case Submit(answer) => var _ := s.SubmitRequests(answer);
        case Advance(n) => s.AdvanceBy(n);
      }
    }
    assert events[..|events|] == events;
  }
}
