/**
  How the threads around the storage writer take turns: any number of enqueues
  and closes, one writer goroutine, a one-slot wake channel and the channel
  that is closed when the writer has returned. Every step is what one thread
  does between two points at which another could run.
 */
module WriterProtocol {

  type Op = nat

  /** Where the writer goroutine is. */
  datatype Loop = NotRunning | Taking | Executing(batch: seq<Op>) | Sleeping | Gone

  /**
    `starting`, `waking` and `closing` count the threads that have left the
    lock and still owe, in that order: starting the goroutine (and a wake
    after it), a wake, and closing the `exited` channel of a writer that never
    ran. `loops` counts goroutines ever started, `closes` how often `exited`
    was closed: more than once would be a panic.
   */
  datatype State = State(
    queue: seq<Op>, done: seq<Op>, started: bool, closed: bool,
    wake: bool, loop: Loop, loops: nat, closes: nat,
    starting: nat, waking: nat, closing: nat,
    accepted: seq<Op>)

  datatype Step =
    | Enqueue(op: Op)   // takes the lock and hands over one operation, or drops it
    | Close             // takes the lock and marks the writer closed
    | Start             // runs the goroutine
    | Wake              // a non-blocking send on the wake channel
    | CloseExited       // a close that found nothing running
    | Take(n: nat)      // the writer takes the next run, of length n
    | Execute           // it executes and reports it
    | WakeUp            // it receives from the wake channel

  predicate Enabled(s: State, a: Step) {
    match a
    case Enqueue(_) => true
    case Close => true
    case Start => s.starting > 0
    case Wake => s.waking > 0
    case CloseExited => s.closing > 0
    case Take(n) => s.loop == Taking && n <= |s.queue| && (s.queue == [] <==> n == 0)
    case Execute => s.loop.Executing?
    case WakeUp => s.loop == Sleeping && s.wake
  }

  function Do(s: State, a: Step): State
    requires Enabled(s, a)
  {
    match a
    case Enqueue(op) =>
      if s.closed then s
      else
        var s1 := s.(queue := s.queue + [op], accepted := s.accepted + [op], started := true);
        if s.started then s1.(waking := s.waking + 1) else s1.(starting := s.starting + 1)
    case Close =>
      var s1 := s.(closed := true, started := true);
      if s.closed then s
      else if s.started then s1.(waking := s.waking + 1)
      else s1.(closing := s.closing + 1)
    case Start => s.(starting := s.starting - 1, waking := s.waking + 1, loop := Taking, loops := s.loops + 1)
    case Wake => s.(waking := s.waking - 1, wake := true)
    case CloseExited => s.(closing := s.closing - 1, closes := s.closes + 1)
    case Take(n) =>
      if n > 0 then s.(queue := s.queue[n..], loop := Executing(s.queue[..n]))
      else if s.closed then s.(loop := Gone, closes := s.closes + 1)
      else s.(loop := Sleeping)
    case Execute => s.(done := s.done + s.loop.batch, loop := Taking)
    case WakeUp => s.(wake := false, loop := Taking)
  }

  const Initial := State([], [], false, false, false, NotRunning, 0, 0, 0, 0, 0, [])

  function InHand(s: State): seq<Op> {
    if s.loop.Executing? then s.loop.batch else []
  }

  /** Something the writer has to do that its next look at the queue would find. */
  predicate WorkWaiting(s: State) {
    s.queue != [] || s.closed
  }

  /** Every accepted operation is in exactly one place, in order. */
  ghost predicate Placed(s: State) {
    s.accepted == s.done + InHand(s) + s.queue && (s.loop.Executing? ==> s.loop.batch != [])
  }

  /** At most one goroutine is ever started, and `exited` is closed at most once. */
  ghost predicate Single(s: State) {
    && s.loops <= 1 && s.closes <= 1
    && s.starting + s.loops + s.closing + (if s.loops == 0 then s.closes else 0) == (if s.started then 1 else 0)
    && (s.loops == 0 <==> s.loop == NotRunning)
    && (s.loops == 1 ==> (s.loop == Gone <==> s.closes == 1))
    && (s.closing > 0 || s.closes > 0 ==> s.closed)
    && (s.closed ==> s.started)
  }

  ghost predicate Inv(s: State) {
    && Placed(s)
    && Single(s)
    // a writer nobody started has nothing to write
    && (s.closing > 0 || (s.loops == 0 && s.closes > 0) || !s.started ==> s.accepted == [])
    // the writer has returned only when everything is reported
    && (s.loop == Gone ==> s.closed && s.queue == [])
    // a sleeping writer with work waiting has a wake in the channel or on its way
    && (s.loop == Sleeping && WorkWaiting(s) ==> s.wake || s.waking > 0)
  }

  lemma StepPlaced(s: State, a: Step)
    requires Placed(s) && Enabled(s, a) && (s.loop == Gone || s.loop == NotRunning || !a.Start?)
    ensures Placed(Do(s, a))
  {
    if a.Take? && a.n > 0 {
      assert s.queue == s.queue[..a.n] + s.queue[a.n..];
    }
  }

  lemma StepInv(s: State, a: Step)
    requires Inv(s) && Enabled(s, a)
    ensures Inv(Do(s, a))
  {
    StepPlaced(s, a);
    hide Placed;
    assert Single(Do(s, a));
  }

  /** An operation handed over before the close is accepted, behind those accepted before it; after the close it is dropped. */
  lemma HandedOver(s: State, op: Op)
    ensures var s' := Do(s, Enqueue(op));
      && (s.closed ==> s' == s)
      && (!s.closed ==> s'.accepted == s.accepted + [op] && s'.queue == s.queue + [op] && s'.started && s'.starting + s'.waking == s.starting + s.waking + 1)
  {
  }

  /** A close is remembered, drops nothing, and owes the writer a wake-up, or the closing of `exited` when no writer was ever started. */
  lemma CloseRequested(s: State)
    ensures var s' := Do(s, Close);
      && s'.closed && s'.queue == s.queue && s'.accepted == s.accepted && s'.done == s.done && s'.loop == s.loop
      && (s.closed ==> s' == s)
      && (!s.closed && s.started ==> s'.waking == s.waking + 1 && s'.closing == s.closing)
      && (!s.closed && !s.started ==> s'.closing == s.closing + 1 && s'.started)
  {
  }

  /** What is executed is done, in the order it was taken. */
  lemma ExecutedIsDone(s: State, n: nat)
    requires Enabled(s, Take(n)) && n > 0
    ensures var s' := Do(s, Take(n));
      Enabled(s', Execute) && Do(s', Execute).done == s.done + s.queue[..n] && Do(s', Execute).queue == s.queue[n..]
  {
  }

  ghost predicate Run(states: seq<State>, steps: seq<Step>) {
    && |states| == |steps| + 1 && states[0] == Initial
    && forall i :: 0 <= i < |steps| ==> Enabled(states[i], steps[i]) && states[i + 1] == Do(states[i], steps[i])
  }

  lemma {:induction false} RunInv(states: seq<State>, steps: seq<Step>, i: nat)
    requires Run(states, steps) && i < |states|
    ensures Inv(states[i])
  {
    if i > 0 {
      RunInv(states, steps, i - 1);
      assert Enabled(states[i - 1], steps[i - 1]);
      StepInv(states[i - 1], steps[i - 1]);
    }
  }

  /** No lost wake-up: whenever the writer sleeps over work, a wake is in the channel or a thread still owes one. */
  lemma NoLostWakeUp(states: seq<State>, steps: seq<Step>, i: nat)
    requires Run(states, steps) && i < |states|
    requires states[i].loop == Sleeping && WorkWaiting(states[i])
    ensures Enabled(states[i], WakeUp) || Enabled(states[i], Wake)
  {
    RunInv(states, steps, i);
  }

  /** A close returns when `exited` is closed: by then every accepted operation was reported, once and in order. */
  lemma CloseDrains(states: seq<State>, steps: seq<Step>, i: nat)
    requires Run(states, steps) && i < |states| && states[i].closes > 0
    ensures states[i].closed && states[i].done == states[i].accepted && states[i].closes == 1
  {
    RunInv(states, steps, i);
  }

  /** Nothing is accepted once a close has returned, and the one goroutine there may have been is gone. */
  lemma {:induction false} NothingAfterClose(states: seq<State>, steps: seq<Step>, i: nat, j: nat)
    requires Run(states, steps) && i <= j < |states| && states[i].closes > 0
    ensures states[j].accepted == states[i].accepted && states[j].done == states[i].done && states[j].closes == 1
    decreases j - i
  {
    hide Inv, Enabled, Do;
    var k := if i < j then j - 1 else i;
    RunInv(states, steps, k);
    if i < j {
      NothingAfterClose(states, steps, i, k);
      ClosedStays(states[k], steps[k]);
    } else {
      ClosedOnce(states[k]);
    }
  }

  lemma ClosedOnce(s: State)
    requires Inv(s) && s.closes > 0
    ensures s.closes == 1
  {
  }

  lemma ClosedStays(s: State, a: Step)
    requires Inv(s) && Enabled(s, a) && s.closes > 0
    ensures Do(s, a).accepted == s.accepted && Do(s, a).done == s.done && Do(s, a).closes == 1
  {
    StepInv(s, a);
  }

  // ---- Progress -----------------------------------------------------------------

  /** A step the writer's own threads take, as opposed to a new call from outside. */
  predicate Internal(a: Step) {
    !a.Enqueue? && !a.Close?
  }

  function LoopWeight(l: Loop): nat {
    match l
    case Executing(_) => 3
    case Taking => 1
    case _ => 0
  }

  /** What is left to do: an upper bound on the number of internal steps. */
  function Left(s: State): nat {
    4 * |s.queue| + LoopWeight(s.loop) + 3 * s.waking + 5 * s.starting + s.closing + (if s.wake then 2 else 0)
  }

  lemma InternalProgress(s: State, a: Step)
    requires Inv(s) && Enabled(s, a) && Internal(a)
    ensures Left(Do(s, a)) < Left(s)
  {
  }

  ghost predicate Quiet(s: State) {
    forall a :: Internal(a) ==> !Enabled(s, a)
  }

  /** Once no thread has anything left to do, everything accepted is reported, and every close has returned. */
  lemma QuietIsDrained(s: State)
    requires Inv(s) && Quiet(s)
    ensures s.done == s.accepted && (s.closed ==> s.closes == 1)
  {
    assert !Enabled(s, Start) && !Enabled(s, Wake) && !Enabled(s, CloseExited);
    assert !Enabled(s, WakeUp) && !Enabled(s, Execute) && !Enabled(s, Take(|s.queue|));
  }

  /** However the threads are scheduled, they fall quiet within `Left` steps of their own. */
  lemma {:induction false} FallsQuiet(states: seq<State>, steps: seq<Step>, i: nat, j: nat)
    requires Run(states, steps) && i <= j < |states|
    requires forall k :: i <= k < j ==> Internal(steps[k])
    ensures j - i + Left(states[j]) <= Left(states[i])
    decreases j - i
  {
    hide Inv, Left, Do, Enabled;
    if i < j {
      FallsQuiet(states, steps, i, j - 1);
      RunInv(states, steps, j - 1);
      assert Enabled(states[j - 1], steps[j - 1]) && Internal(steps[j - 1]);
      InternalProgress(states[j - 1], steps[j - 1]);
    }
  }
}
