/** `async.waterfall` over the pushed tasks: in order, each task's record handed to the next, stopping at the first error. */
module Pipeline {
  import opened Wrappers
  import opened Documents
  import opened Context
  import opened Steps
  import opened StepLaws
  import opened StepBodies

  /** How a waterfall run ends. */
  datatype Outcome =
    | Completed(last: Option<Params>)       // the final callback receives no error (and the last record, if any)
    | Failed(err: Error)                    // the final callback receives the error; no user callback, no store call, no close
    | Issued(call: StoreCall, closes: Db)   // a terminal task called the store; its reply goes to the user callback, then `closes` is closed
    | Crashed                               // a TypeError was thrown
  {
    /** Nothing after this point can run. */
    predicate IsFinal() {
      !Completed?
    }
  }

  /** The rest of a run, once a task has replied `r` and `rest` are still queued. */
  function Continue(r: Reply, rest: seq<Step>): Outcome
    decreases |rest|
  {
    match r
    case Next(p) => if rest == [] then Completed(Some(p)) else Continue(Apply(rest[0], p), rest[1..])
    case Fail(e) => Failed(e)
    case Stored(call, db) => Issued(call, db)
    case Thrown => Crashed
  }

  /** A whole run: the first task gets only the continuation, each later one the previous record. */
  function Run(tasks: seq<Step>, connect: Connector): Outcome {
    if tasks == [] then Completed(None) else Continue(Start(tasks[0], connect), tasks[1..])
  }

  /** The waterfall as a loop: call each task with the record the previous one passed on, until one does not continue. */
  method Waterfall(tasks: seq<Step>, connect: Connector) returns (out: Outcome)
    ensures out == Run(tasks, connect)
  {
    if tasks == [] {
      return Completed(None);
    }
    var r, params := StartTask(tasks[0], connect);
    var taskIndex := 1;
    while taskIndex < |tasks| && r.Next?
      invariant 1 <= taskIndex <= |tasks|
      invariant fresh(params)
      invariant r.Next? ==> params.Contents() == r.params
      invariant Continue(r, tasks[taskIndex..]) == Run(tasks, connect)
    {
      r, params := Invoke(tasks[taskIndex], params);
      taskIndex := taskIndex + 1;
    }
    match r
    case Next(_) => out := Completed(Some(params.Contents()));
    case Fail(e) => out := Failed(e);
    case Stored(call, db) => out := Issued(call, db);
    case Thrown => out := Crashed;
  }

  /** One turn of the waterfall: a task that continues hands its record to the next queued task. */
  lemma ContinueStep(p: Params, rest: seq<Step>)
    requires rest != []
    ensures Continue(Next(p), rest) == Continue(Apply(rest[0], p), rest[1..])
  {
  }

  /** Running more tasks after `rest` is running `rest`, then the rest from where it left off; an ending is never undone. */
  lemma {:induction false} ContinueAppend(r: Reply, rest: seq<Step>, tail: seq<Step>)
    ensures Continue(r, rest + tail) ==
      match Continue(r, rest)
      case Completed(Some(p)) => Continue(Next(p), tail)
      case _ => Continue(r, rest)
    ensures Continue(r, rest).Completed? ==> Continue(r, rest).last.Some?
    decreases |rest|
  {
    match r
    case Next(p) =>
      if rest == [] {
        assert rest + tail == tail;
      } else {
        assert (rest + tail)[0] == rest[0];
        assert (rest + tail)[1..] == rest[1..] + tail;
        ContinueAppend(Apply(rest[0], p), rest[1..], tail);
      }
    case Fail(_) =>
    case Stored(_, _) =>
    case Thrown =>
  }

  /** Short circuit: once a run has failed, called the store or thrown, queuing more tasks changes nothing. */
  lemma ShortCircuit(tasks: seq<Step>, tail: seq<Step>, connect: Connector)
    requires Run(tasks, connect).IsFinal()
    ensures Run(tasks + tail, connect) == Run(tasks, connect)
  {
    assert (tasks + tail)[0] == tasks[0];
    assert (tasks + tail)[1..] == tasks[1..] + tail;
    ContinueAppend(Start(tasks[0], connect), tasks[1..], tail);
  }

  /** A run that completes hands its last record to the tasks queued after it. */
  lemma RunThreads(tasks: seq<Step>, tail: seq<Step>, connect: Connector)
    requires tasks != [] && Run(tasks, connect).Completed?
    ensures Run(tasks, connect).last.Some?
    ensures Run(tasks + tail, connect) == Continue(Next(Run(tasks, connect).last.value), tail)
  {
    assert (tasks + tail)[0] == tasks[0];
    assert (tasks + tail)[1..] == tasks[1..] + tail;
    ContinueAppend(Start(tasks[0], connect), tasks[1..], tail);
  }

  /** A queue that ends in a terminal task never completes: it fails, calls the store or throws. */
  lemma {:induction false} EndsAtTerminal(r: Reply, rest: seq<Step>)
    requires rest != [] && rest[|rest| - 1].IsTerminal()
    ensures Continue(r, rest).IsFinal()
    decreases |rest|
  {
    if r.Next? {
      var q := Apply(rest[0], r.params);
      if |rest| == 1 {
        StepValidation(rest[0], r.params);
      } else {
        EndsAtTerminal(q, rest[1..]);
      }
    }
  }

  /** Every task list the builder runs ends with the terminal just pushed, so the run is final. */
  lemma TerminalRunIsFinal(tasks: seq<Step>, connect: Connector)
    requires tasks != [] && tasks[|tasks| - 1].IsTerminal()
    ensures Run(tasks, connect).IsFinal()
  {
    if |tasks| == 1 {
      FirstTaskMustBeServer(tasks[0], connect);
    } else {
      EndsAtTerminal(Start(tasks[0], connect), tasks[1..]);
    }
  }

  /** Without a reset, a second chain's tasks queue behind the first chain's terminal task and never run: the second terminal call repeats the first run. */
  lemma StaleTasksMaskNewChain(first: seq<Step>, second: seq<Step>, connect: Connector)
    requires first != [] && first[|first| - 1].IsTerminal()
    ensures Run(first + second, connect) == Run(first, connect)
  {
    TerminalRunIsFinal(first, connect);
    ShortCircuit(first, second, connect);
  }

  /** A failed validation anywhere ends the run with the message: nothing later runs, so no store call and no close. */
  lemma FailedStepStops(tasks: seq<Step>, k: nat, p: Params, connect: Connector)
    requires 0 < k < |tasks| && !tasks[k].Server?
    requires Run(tasks[..k], connect) == Completed(Some(p))
    requires !ValidParams(p, Stage(tasks[k]))
    ensures Run(tasks, connect) == Failed(NotEnoughParams)
  {
    RunThreads(tasks[..k], tasks[k..], connect);
    assert tasks[..k] + tasks[k..] == tasks;
    StepValidation(tasks[k], p);
  }

  /** Every record a run hands on keeps the collection handle with its connection. */
  lemma {:induction false} ContinueCoherent(r: Reply, rest: seq<Step>, db: Db)
    requires r.Next? ==> r.params.db == Some(db) && Coherent(r.params)
    requires r.Stored? ==> r.closes == db && Target(r.call).db == db
    ensures Continue(r, rest).Issued? ==>
      Continue(r, rest).closes == db && Target(Continue(r, rest).call).db == db
    decreases |rest|
  {
    if r.Next? && rest != [] {
      ConnectionKept(rest[0], r.params);
      ContinueCoherent(Apply(rest[0], r.params), rest[1..], db);
    }
  }

  /** The connection a store call closes is the one `server` opened, and the call goes through a collection of that connection. */
  lemma IssuedClosesOpenedConnection(tasks: seq<Step>, connect: Connector)
    requires Run(tasks, connect).Issued?
    ensures tasks[0].Server? && connect(tasks[0].connStr) == Ok(Run(tasks, connect).closes)
    ensures Target(Run(tasks, connect).call).db == Run(tasks, connect).closes
  {
    if tasks[0].Server? {
      match connect(tasks[0].connStr)
      case Ok(db) =>
        ContinueCoherent(Start(tasks[0], connect), tasks[1..], db);
      case Err(_) =>
    }
  }

  /** A `server` anywhere but first throws when its turn comes. */
  lemma LateServerThrows(tasks: seq<Step>, k: nat, connect: Connector)
    requires 0 < k < |tasks| && tasks[k].Server?
    requires Run(tasks[..k], connect).Completed?
    ensures Run(tasks, connect) == Crashed
  {
    RunThreads(tasks[..k], tasks[k..], connect);
    assert tasks[..k] + tasks[k..] == tasks;
  }
}
