/** The payment queue, as a sequential machine: producers append tasks and
    start the consumer when it is not running; the consumer takes tasks in
    order, transfers each one and pauses for the configured cooldown, and
    clears the processing flag when it finds the queue empty. */
module PaymentQueue {

  import opened Wrappers
  import opened Players
  import opened Decimals

  datatype PaymentTask = PaymentTask(uuid: Uuid, amount: Decimal, cardId: string, name: string, online: bool)

  /** A task captures the player's name when it is queued, "Unknown" when
      the server does not know it. */
  function MakeTask(p: Player, amount: Decimal, cardId: string): (t: PaymentTask)
    ensures t.uuid == p.uuid && t.amount == amount && t.cardId == cardId && t.online == p.online
    ensures p.name.None? ==> t.name == "Unknown"
    ensures p.name.Some? ==> t.name == p.name.value
  {
    PaymentTask(p.uuid, amount, cardId, p.name.GetOr("Unknown"), p.online)
  }

  /** What became of one transfer: the card service confirmed or refused
      it, did not answer within ReplyTimeoutMs, or the call itself threw. */
  datatype TransferOutcome = Succeeded(txId: Option<string>) | Failed(error: string) | TimedOut | Threw

  /** How long the consumer waits for the card service's answer. */
  const ReplyTimeoutMs: int := 10000

  /** One dispatched task, its outcome and the pause that followed it. */
  datatype Transfer = Transfer(task: PaymentTask, outcome: TransferOutcome, pauseMs: int)

  /** The pause after a transfer: the cooldown, except that a negative
      cooldown makes the sleep throw and a throwing transfer skips the sleep,
      both caught by the consumer loop, so that no pause follows. */
  function PauseAfter(outcome: TransferOutcome, cooldownMs: int): (r: int)
    ensures r >= 0
    ensures r == 0 || r == cooldownMs
    ensures !outcome.Threw? && cooldownMs >= 0 ==> r == cooldownMs
    ensures outcome.Threw? || cooldownMs < 0 ==> r == 0
  {
    if outcome.Threw? || cooldownMs < 0 then 0 else cooldownMs
  }

  function TasksOf(log: seq<Transfer>): (r: seq<PaymentTask>)
    ensures |r| == |log|
    ensures forall i :: 0 <= i < |log| ==> r[i] == log[i].task
  {
    if log == [] then [] else TasksOf(log[..|log| - 1]) + [log[|log| - 1].task]
  }

  /** The transfers the consumer performs for the given tasks, in order, when
      the card service answers each task with reply(task). */
  function TransfersOf(tasks: seq<PaymentTask>, cooldownMs: int, reply: PaymentTask -> TransferOutcome): seq<Transfer>
  {
    if tasks == [] then []
    else
      var t := tasks[|tasks| - 1];
      TransfersOf(tasks[..|tasks| - 1], cooldownMs, reply) + [Transfer(t, reply(t), PauseAfter(reply(t), cooldownMs))]
  }

  lemma TransfersOfSnoc(tasks: seq<PaymentTask>, t: PaymentTask, cooldownMs: int, reply: PaymentTask -> TransferOutcome)
    ensures TransfersOf(tasks + [t], cooldownMs, reply) ==
      TransfersOf(tasks, cooldownMs, reply) + [Transfer(t, reply(t), PauseAfter(reply(t), cooldownMs))]
  {
    assert (tasks + [t])[..|tasks|] == tasks;
  }

  /** Taking the oldest task first: the transfers of t followed by rest
      start with t's. */
  lemma {:induction false} TransfersOfCons(t: PaymentTask, rest: seq<PaymentTask>, cooldownMs: int, reply: PaymentTask -> TransferOutcome)
    ensures TransfersOf([t] + rest, cooldownMs, reply) ==
      [Transfer(t, reply(t), PauseAfter(reply(t), cooldownMs))] + TransfersOf(rest, cooldownMs, reply)
  {
    if rest == [] {
      TransfersOfSnoc([], t, cooldownMs, reply);
      assert [t] + rest == [] + [t];
    } else {
      var init, x := rest[..|rest| - 1], rest[|rest| - 1];
      assert [t] + rest == ([t] + init) + [x];
      assert rest == init + [x];
      TransfersOfCons(t, init, cooldownMs, reply);
      TransfersOfSnoc([t] + init, x, cooldownMs, reply);
      TransfersOfSnoc(init, x, cooldownMs, reply);
    }
  }

  lemma TasksOfSnoc(log: seq<Transfer>, tr: Transfer)
    ensures TasksOf(log + [tr]) == TasksOf(log) + [tr.task]
  {
    assert (log + [tr])[..|log|] == log;
  }

  /** Draining dispatches exactly the given tasks, in the given order. */
  lemma {:induction false} TransfersOfTasks(tasks: seq<PaymentTask>, cooldownMs: int, reply: PaymentTask -> TransferOutcome)
    ensures TasksOf(TransfersOf(tasks, cooldownMs, reply)) == tasks
  {
    if tasks != [] {
      var init, t := tasks[..|tasks| - 1], tasks[|tasks| - 1];
      assert tasks == init + [t];
      TransfersOfTasks(init, cooldownMs, reply);
      TransfersOfSnoc(init, t, cooldownMs, reply);
      TasksOfSnoc(TransfersOf(init, cooldownMs, reply), Transfer(t, reply(t), PauseAfter(reply(t), cooldownMs)));
    }
  }

  class PaymentQueue {
    var pending: seq<PaymentTask>
    var processing: bool
    /** The transfers performed so far. */
    var log: seq<Transfer>
    /** Every task ever queued, in order. */
    ghost var enqueued: seq<PaymentTask>

    /** Tasks leave in the order they arrived, none is lost or repeated, and
        the flag is down only when nothing is waiting. */
    ghost predicate Valid()
      reads this
    {
      TasksOf(log) + pending == enqueued && (!processing ==> pending == [])
    }

    constructor()
      ensures Valid() && pending == [] && !processing && log == [] && enqueued == []
    {
      pending := [];
      processing := false;
      log := [];
      enqueued := [];
    }

    /** queuePayment: appends the task and starts the consumer when it is not
        already running. */
    method Enqueue(t: PaymentTask)
      requires Valid()
      modifies this
      ensures Valid()
      ensures pending == old(pending) + [t] && processing && log == old(log)
      ensures enqueued == old(enqueued) + [t]
    {
      pending := pending + [t];
      enqueued := enqueued + [t];
      processing := true;
    }

    /** One turn of the consumer loop: on an empty queue the flag is
        cleared and the consumer stops; otherwise the oldest task is
        transferred and the cooldown pause follows. */
    method Step(cooldownMs: int, reply: PaymentTask -> TransferOutcome) returns (stopped: bool)
      requires Valid() && processing
      modifies this
      ensures Valid()
      ensures enqueued == old(enqueued)
      ensures stopped <==> old(pending) == []
      ensures stopped ==> !processing && pending == [] && log == old(log)
      ensures !stopped ==> processing && pending == old(pending)[1..]
      ensures !stopped ==>
        log == old(log) + [Transfer(old(pending)[0], reply(old(pending)[0]), PauseAfter(reply(old(pending)[0]), cooldownMs))]
    {
      if pending == [] {
        processing := false;
        return true;
      }
      var t := pending[0];
      var outcome := reply(t);
      var tr := Transfer(t, outcome, PauseAfter(outcome, cooldownMs));
      TasksOfSnoc(log, tr);
      assert (TasksOf(log) + [t]) + pending[1..] == TasksOf(log) + pending;
      log := log + [tr];
      pending := pending[1..];
      return false;
    }

    /** Runs the consumer until it stops: every waiting task is transferred,
        in order, and the flag ends down. */
    method Drain(cooldownMs: int, reply: PaymentTask -> TransferOutcome)
      requires Valid()
      modifies this
      ensures Valid() && !processing && pending == []
      ensures enqueued == old(enqueued)
      ensures log == old(log) + TransfersOf(old(pending), cooldownMs, reply)
      ensures TasksOf(log) == enqueued
    {
      while processing
        invariant Valid() && enqueued == old(enqueued)
        invariant log + TransfersOf(pending, cooldownMs, reply) == old(log) + TransfersOf(old(pending), cooldownMs, reply)
        invariant !processing ==> pending == []
        decreases |pending| + (if processing then 1 else 0)
      {
        var before, logBefore := pending, log;
        var stopped := Step(cooldownMs, reply);
        if !stopped {
          var t := before[0];
          assert before == [t] + before[1..];
          TransfersOfCons(t, before[1..], cooldownMs, reply);
          var tr := Transfer(t, reply(t), PauseAfter(reply(t), cooldownMs));
          assert log + TransfersOf(pending, cooldownMs, reply) == logBefore + ([tr] + TransfersOf(before[1..], cooldownMs, reply));
        }
      }
    }
  }

  /** Dispatch order is arrival order: the transferred tasks are always the
      oldest ones queued. */
  lemma DispatchOrder(q: PaymentQueue)
    requires q.Valid()
    ensures |q.log| <= |q.enqueued|
    ensures TasksOf(q.log) == q.enqueued[..|q.log|]
    ensures q.pending == q.enqueued[|q.log|..]
  {
  }
}
