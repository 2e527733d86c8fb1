/** From the Go relay to an execution: what becomes of a request that the relay has stamped and sent when it
    arrives as a call at the agent's server. */
module GoRouting {
  import opened Options
  import R = GoRelay
  import F = FanIn

  /** A request as the server sees it: the task id it was stamped with, and its text. */
  function Incoming(request: R.Request, text: string): F.Message {
    F.Message(request.message.taskId, text)
  }

  /** Request `k` for agent `j` went out after the one that opened the stream, when steps `p`, `c` and `q` had
      stamped and enqueued it, and the agent has announced the task that `task` is the id of. */
  ghost predicate SentOn(names: seq<string>, steps: seq<R.Step>, j: nat, k: nat, p: nat, c: nat, q: nat, task: string) {
    && R.CanRun(R.Start(names), steps) && R.StampedBy(R.Start(names), steps, j, k, p, c, q)
    && j < |R.After(R.Start(names), steps).agents|
    && var a := R.After(R.Start(names), steps).agents[j];
       0 < k < |a.sent| && a.given.Some? && R.IdOf(a.given.value) == task
  }

  lemma SentOnStamp(names: seq<string>, steps: seq<R.Step>, j: nat, k: nat, p: nat, c: nat, q: nat, task: string)
    requires SentOn(names, steps, j, k, p, c, q, task)
    ensures j < |R.At(R.Start(names), steps, p).agents|
    ensures var request, known := R.After(R.Start(names), steps).agents[j].sent[k], R.At(R.Start(names), steps, p).agents[j].taskId != "";
      task != "" && request.message.taskId == if known then task else ""
  {
    var s := R.Start(names);
    R.StampHolds(s, steps, j, k, p, c, q);
    R.StampIsRightIff(names, steps, j, k, p, c, q);
    R.StartInv(names);
    R.RunKeepsInv(s, steps);
    assert R.AgentOk(R.After(s, steps).agents[j], j);
  }

  /** When the request arrives at the server, where `e` is an execution of the announced task, it can end in the
      inbox of `e` exactly if the relay had the task on record when it stamped the request and the execution
      is running and was left alone; otherwise, if the task was not on record, it goes to the inner handler. */
  lemma RelayedRequestEndsInIff(names: seq<string>, steps: seq<R.Step>, j: nat, k: nat, p: nat, c: nat, q: nat, text: string,
                                served: seq<F.Step>, start: nat, e: nat, call: nat)
    requires F.CanRun(served) && F.StartedAt(served, start, e)
    requires SentOn(names, steps, j, k, p, c, q, served[start].taskId)
    requires call < |F.After(served).calls|
    requires F.After(served).calls[call] == F.Arrived(Some(Incoming(R.After(R.Start(names), steps).agents[j].sent[k], text)))
    ensures j < |R.At(R.Start(names), steps, p).agents| && e < |F.After(served).executions|
    ensures var message := Incoming(R.After(R.Start(names), steps).agents[j].sent[k], text);
      (exists longer :: F.EndsIn(served, longer, call, e, message)) <==>
        && R.At(R.Start(names), steps, p).agents[j].taskId != ""
        && F.After(served).executions[e].running && F.LeftAlone(served, start, e, served[start].taskId)
    ensures R.At(R.Start(names), steps, p).agents[j].taskId == "" ==>
              && F.Enabled(F.After(served), F.LookUp(call)) && call < |F.Next(F.After(served), F.LookUp(call)).calls|
              && F.Next(F.After(served), F.LookUp(call)).calls[call].ToInner?
  {
    var message := Incoming(R.After(R.Start(names), steps).agents[j].sent[k], text);
    SentOnStamp(names, steps, j, k, p, c, q, served[start].taskId);
    F.DisturbedSinceStart(served, start, e);
    F.ArrivalEndsInIff(served, start, e, call, message);
    F.LookUpFinds(served, start, e, call, message);
  }
}
