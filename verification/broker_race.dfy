/**
 The gap between the last check and the send: a run in which an operator stop and the observed exit of
 the worker commit after the check, so that the command is sent for an attempt that is over.
 */
module BrokerRace {
  import opened Options
  import opened Broker
  import BrokerInvariants
  import BrokerTheorems
  import Remote = RemoteQueue

  const CASE := CaseRow(true, 1)
  const GRANT := Id("job", 1)
  const TOKEN := Token("launch", "digest", "key")
  const PARAMS := Params(TOKEN, "job", 1, "case", 1, "input")
  const JOB := Job(Queued, 0, None, None, "input", 1, "case", NoError)
  const RUNNING := JOB.(state := Running, attempt := 1, owner := Some("worker"), lease := Some(120))
  const LAUNCH := Launch(Launching, "job", "input", "contract")
  const TASK := Task("job", 1, "case", 1, "input")

  function Reads(now: int): RemoteReads { RemoteReads(true, "contract", true, true, now) }

  // The tables once the task is claimed.
  const CLAIMED := State(
    Slot(map["launch" := LAUNCH], {"launch"}),
    Tasks(map["job" := RUNNING], map["case" := CASE]),
    Auth(map["launch" := ClaimReceipt("digest", "key", Some(TASK))],
         map[GRANT := Grant(TOKEN, 1, "input", "worker", 0, 120, false)]),
    Exec(map[], map[], map[]), Replies(map[], [], map[], map[]), Remote.Init())

  const STARTED := CLAIMED.(exec := Exec(map[GRANT := Start("start", 1, "contract")],
      map[GRANT := Resource("launch", false)], map[]))

  const ACTION := Remote.Action(GRANT, "digest", "plan", Remote.Queued, 2, 2)

  function Queue(a: Remote.Action, phases: map<string, Remote.Phase>): State {
    STARTED.(remote := Remote.State(Remote.Queue(map["run" := a], map[]), Remote.Audit(map[], map[]),
        Remote.Runs(phases, [])))
  }

  const ACTIVE := ACTION.(state := Remote.Running, updated := 3)
  const READY := Queue(ACTIVE, map["run" := Remote.Ready])

  const DISPATCHED := State(
    Slot(map["launch" := LAUNCH], {}), Tasks(map["job" := JOB], map["case" := CASE]), Auth(map[], map[]),
    Exec(map[], map[], map[]), Replies(map[], [], map[], map[]), Remote.Init())

  const CHECKED := DISPATCHED.(slot := Slot(map["launch" := LAUNCH], {"launch"}))

  const OPENED := Init().(tasks := Tasks(map[], map["case" := CASE]))
  const QUEUED := Init().(tasks := Tasks(map["job" := JOB], map["case" := CASE]))

  lemma OpenStep()
    ensures Run([]) == Init() && Apply(Init(), ChangeCase("case", CASE)) == OPENED
    ensures Apply(OPENED, AddJob("job", "case", 1, "input")) == QUEUED
  {}

  lemma DispatchStep()
    ensures Apply(QUEUED, DispatchOne("launch", "job", "contract", true, true)) == DISPATCHED
  {}

  lemma DispatchRun() returns (es: seq<Event>)
    ensures Run(es) == DISPATCHED
  {
    hide Run, Apply, OPENED, QUEUED, DISPATCHED;
    OpenStep();
    es := Extend([], Init(), ChangeCase("case", CASE));
    es := Extend(es, OPENED, AddJob("job", "case", 1, "input"));
    es := Extend(es, QUEUED, DispatchOne("launch", "job", "contract", true, true));
    DispatchStep();
  }

  lemma CheckedStep()
    ensures Apply(DISPATCHED, CheckClaimOf("launch")) == CHECKED
  {}

  lemma ClaimStep()
    ensures Apply(CHECKED, ClaimTask(ClaimRequest("launch", "digest", "key"),
        ClaimReads(true, "contract", true, true, "worker", 0))) == CLAIMED
  {}

  lemma ClaimRun() returns (es: seq<Event>)
    ensures Run(es) == CLAIMED
  {
    es := DispatchRun();
    hide Run, Apply, DISPATCHED, CHECKED, CLAIMED;
    es := Extend(es, DISPATCHED, CheckClaimOf("launch"));
    CheckedStep();
    es := Extend(es, CHECKED, ClaimTask(ClaimRequest("launch", "digest", "key"),
        ClaimReads(true, "contract", true, true, "worker", 0)));
    ClaimStep();
  }

  lemma Bound(s: State, now: int)
    requires s.tasks == CLAIMED.tasks && s.auth == CLAIMED.auth && 0 <= now < 120
    ensures BoundTask(s, PARAMS, now)
  {}

  lemma StartStep()
    ensures Apply(CLAIMED, StartTask(PARAMS, "start", "launch", StartReads(true, "contract", true, true, 1))) == STARTED
  {
    Bound(CLAIMED, 1);
    hide BoundTask;
  }

  lemma SubmitStep()
    ensures Apply(STARTED, SubmitRemote(PARAMS, "run", "digest", "plan", Reads(2), 2)) == Queue(ACTION, map[])
  {
    Bound(STARTED, 2);
    hide BoundTask;
  }

  lemma SubmitRun() returns (es: seq<Event>)
    ensures Run(es) == Queue(ACTION, map[])
  {
    es := ClaimRun();
    hide Run, Apply, Queue, CLAIMED, STARTED;
    es := Extend(es, CLAIMED, StartTask(PARAMS, "start", "launch", StartReads(true, "contract", true, true, 1)));
    StartStep();
    es := Extend(es, STARTED, SubmitRemote(PARAMS, "run", "digest", "plan", Reads(2), 2));
    SubmitStep();
  }

  const BEGUN := Queue(ACTIVE, map["run" := Remote.Started])

  lemma BeginStep()
    ensures Apply(Queue(ACTION, map[]), StartRemote("run", Reads(3), 3)) == BEGUN
  {
    Bound(Queue(ACTION, map[]), 3);
    hide BoundTask;
  }

  lemma CheckStep()
    ensures Apply(BEGUN, CheckRemote("run", Reads(4))) == READY
  {
    Bound(BEGUN, 4);
    hide BoundTask;
  }

  // The operator stops the job; the worker's instance and then its exit are observed.
  const STOPPED := READY.(tasks := READY.tasks.(jobs := map["job" := RUNNING.(state := Cancelled, owner := None,
      lease := None, error := OtherError)]))
  const SEEN := STOPPED.(exec := STOPPED.exec.(units := map[GRANT := Unit("launch", "invocation", None)]))
  const EXITED := STOPPED.(exec := STOPPED.exec.(units := map[GRANT := Unit("launch", "invocation", Some(0))]))

  lemma StopStep()
    ensures Apply(READY, MoveJobTo("job", Cancelled)) == STOPPED
  {}

  lemma SeenStep()
    ensures Apply(STOPPED, ObserveUnit(GRANT, "launch", "invocation")) == SEEN
  {}

  lemma ExitStep()
    ensures Apply(SEEN, ObserveExit(GRANT, 0)) == EXITED
  {}

  lemma SendStep()
    ensures "run" in EXITED.remote.queue.actions && EXITED.remote.queue.actions["run"].grant == GRANT
    ensures Apply(EXITED, SendRemote("run")).remote.runs.executed == EXITED.remote.runs.executed + ["run"]
    ensures BrokerInvariants.Dead(EXITED.tasks, GRANT) && GRANT in EXITED.exec.units
        && EXITED.exec.units[GRANT].exit.Some?
  {}

  lemma ExitedRun() returns (es: seq<Event>)
    ensures Run(es) == EXITED
  {
    es := SubmitRun();
    hide Run, Apply, Queue, READY, BEGUN, STOPPED, SEEN, EXITED;
    es := Extend(es, Queue(ACTION, map[]), StartRemote("run", Reads(3), 3));
    BeginStep();
    es := Extend(es, BEGUN, CheckRemote("run", Reads(4)));
    CheckStep();
    es := Extend(es, READY, MoveJobTo("job", Cancelled));
    StopStep();
    es := Extend(es, STOPPED, ObserveUnit(GRANT, "launch", "invocation"));
    SeenStep();
    es := Extend(es, SEEN, ObserveExit(GRANT, 0));
    ExitStep();
  }

  lemma Extend(es: seq<Event>, s: State, e: Event) returns (next: seq<Event>)
    requires Run(es) == s
    ensures Run(next) == Apply(s, e)
  {
    BrokerTheorems.RunSnoc(es, e);
    next := es + [e];
  }

  /** The last check does not reach the send: here the command is handed to the transport although its
      attempt is over and the exit of its worker was observed. */
  lemma DeadAtTheSend() returns (es: seq<Event>, e: Event)
    ensures e == SendRemote("run") && "run" in Run(es).remote.queue.actions
        && Run(es).remote.queue.actions["run"].grant == GRANT
    ensures Run(es + [e]).remote.runs.executed == Run(es).remote.runs.executed + ["run"]
    ensures BrokerInvariants.Dead(Run(es).tasks, GRANT) && GRANT in Run(es).exec.units
        && Run(es).exec.units[GRANT].exit.Some?
  {
    es := ExitedRun();
    e := SendRemote("run");
    BrokerTheorems.RunSnoc(es, e);
    SendStep();
    hide Run, Apply, EXITED, BrokerInvariants.Dead;
  }
}
