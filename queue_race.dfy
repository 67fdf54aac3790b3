/** The start/stop handshake of the payment queue with producer and consumer
    steps interleaved.  A producer offers its task and then runs the start
    routine, which holds the plugin's monitor; the consumer, on finding the
    queue empty, checks emptiness and clears the processing flag while
    holding a separate queue lock.  Because the two paths hold different
    locks, a producer can slip in between the consumer's check and its
    clearing of the flag.  AsWritten models that; Corrected makes check and
    clear one step that excludes the start routine, and proves that no task
    is then left waiting with no consumer. */
module QueueRace {

  /** Where the consumer thread is: gone, waiting on the queue, about to
      check for emptiness, or about to clear the flag. */
  datatype Pc = Gone | Polling | Checking | Clearing

  /** queue: waiting tasks; flag: the processing flag; starting: producers
      that have offered a task and not yet run the start routine. */
  datatype State = State(queue: seq<int>, flag: bool, consumer: Pc, starting: nat)

  datatype Action = Offer(task: int) | Start | Poll | Check | Clear

  const Init: State := State([], false, Gone, 0)

  /** Producer steps, the same in both versions. */
  function ProducerStep(s: State, a: Action): State
    requires a.Offer? || a.Start?
  {
    match a
    case Offer(t) => s.(queue := s.queue + [t], starting := s.starting + 1)
    case Start =>
      if s.starting == 0 then s
      else if s.flag then s.(starting := s.starting - 1)
      else s.(starting := s.starting - 1, flag := true, consumer := Polling)
  }

  /** The consumer taking the next task, or finding none. */
  function PollStep(s: State): State
  {
    if s.consumer != Polling then s
    else if s.queue != [] then s.(queue := s.queue[1..])
    else s.(consumer := Checking)
  }

  /** The handshake as written: check and clear are separate steps. */
  function StepAsWritten(s: State, a: Action): State
  {
    match a
    case Offer(_) => ProducerStep(s, a)
    case Start => ProducerStep(s, a)
    case Poll => PollStep(s)
    case Check =>
      if s.consumer != Checking then s
      else if s.queue == [] then s.(consumer := Clearing)
      else s.(consumer := Polling)
    case Clear =>
      if s.consumer != Clearing then s else s.(flag := false, consumer := Gone)
  }

  /** The handshake corrected: the consumer checks and clears in one step
      under the lock the start routine holds. */
  function StepCorrected(s: State, a: Action): State
  {
    match a
    case Offer(_) => ProducerStep(s, a)
    case Start => ProducerStep(s, a)
    case Poll => PollStep(s)
    case Check =>
      if s.consumer != Checking then s
      else if s.queue == [] then s.(flag := false, consumer := Gone)
      else s.(consumer := Polling)
    case Clear => s
  }

  function RunAsWritten(s: State, trace: seq<Action>): State
    decreases |trace|
  {
    if trace == [] then s else RunAsWritten(StepAsWritten(s, trace[0]), trace[1..])
  }

  function RunCorrected(s: State, trace: seq<Action>): State
    decreases |trace|
  {
    if trace == [] then s else RunCorrected(StepCorrected(s, trace[0]), trace[1..])
  }

  /** The flag is up exactly while a consumer exists, and when no producer
      is between its offer and its start, a missing consumer means an empty
      queue: no task waits with nobody to take it. */
  predicate NoStrandedTask(s: State) {
    (s.flag <==> s.consumer != Gone) && (!s.flag && s.starting == 0 ==> s.queue == [])
  }

  const StrandingTrace: seq<Action> := [Offer(1), Start, Poll, Poll, Check, Offer(2), Start, Clear]

  /** As written, a task can be stranded: after this interleaving task 2
      waits, the flag is down and no consumer exists, and no consumer step
      can change that; only a later payment restarts the consumer. */
  lemma AsWrittenStrandsTask()
    ensures NoStrandedTask(Init)
    ensures RunAsWritten(Init, StrandingTrace) == State([2], false, Gone, 0)
    ensures !NoStrandedTask(RunAsWritten(Init, StrandingTrace))
    ensures forall a: Action :: a.Poll? || a.Check? || a.Clear? ==>
      StepAsWritten(State([2], false, Gone, 0), a) == State([2], false, Gone, 0)
  {
    var s0 := Init;
    var s1 := StepAsWritten(s0, Offer(1));
    assert s1 == State([1], false, Gone, 1);
    var s2 := StepAsWritten(s1, Start);
    assert s2 == State([1], true, Polling, 0);
    var s3 := StepAsWritten(s2, Poll);
    assert s3 == State([], true, Polling, 0);
    var s4 := StepAsWritten(s3, Poll);
    var s5 := StepAsWritten(s4, Check);
    assert s5 == State([], true, Clearing, 0);
    var s6 := StepAsWritten(s5, Offer(2));
    var s7 := StepAsWritten(s6, Start);
    assert s7 == State([2], true, Clearing, 0);
  }

  /** Corrected, every step keeps NoStrandedTask. */
  lemma CorrectedStepKeepsInvariant(s: State, a: Action)
    requires NoStrandedTask(s)
    ensures NoStrandedTask(StepCorrected(s, a))
  {
  }

  /** Corrected, no interleaving from the initial state strands a task. */
  lemma {:induction false} CorrectedNeverStrands(s: State, trace: seq<Action>)
    requires NoStrandedTask(s)
    ensures NoStrandedTask(RunCorrected(s, trace))
    decreases |trace|
  {
    if trace != [] {
      CorrectedStepKeepsInvariant(s, trace[0]);
      CorrectedNeverStrands(StepCorrected(s, trace[0]), trace[1..]);
    }
  }
}
