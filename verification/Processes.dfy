/**
 The server process: the server, the log table, and the broker in front of it. Inputs are the steps of the server
 with the clock readings that their segments take, log messages, and messages of a missing or unknown type, which are
 ignored. Whatever the inputs, the objects hold the state that a run of the event loop leads to, and the log table
 and the broker what was logged.
 */
module Processes {
  import opened Jobs
  import opened Lifecycle
  import opened System
  import opened Scheduling
  import opened Counting
  import opened Audit
  import opened LogFeed
  import opened LogBrokers
  import opened ControlPlane
  import opened Serving
  import History
  import Wiring

  const HISTORY_CAP: nat := 5000
  const SUBSCRIBER_QUEUE_CAP: nat := 1000

  datatype Input =
    | Step(step: Label, clock: seq<int>)
    | LogLine(job: JobId, stream: Stream, sequence: int, chunk: string, t: int)
    | Ignored

  /** The steps among the inputs. */
  function Steps(inputs: seq<Input>): seq<Label> {
    if inputs == [] then []
    else
      var last := inputs[|inputs| - 1];
      Steps(inputs[..|inputs| - 1]) + (if last.Step? then [last.step] else [])
  }

  /** The rows that the log messages among the inputs leave. */
  function LoggedRows(inputs: seq<Input>): seq<LogRow> {
    if inputs == [] then []
    else
      var last := inputs[|inputs| - 1];
      LoggedRows(inputs[..|inputs| - 1])
      + (if last.LogLine? then [LogRow(last.job, last.stream, last.sequence, last.chunk, last.t)] else [])
  }

  /** How many of them were there at the last restart, or at the beginning. */
  function AtRestart(inputs: seq<Input>): nat {
    if inputs == [] then 0
    else
      var init, last := inputs[..|inputs| - 1], inputs[|inputs| - 1];
      if last.Step? && last.step.Restart? then |LoggedRows(init)| else AtRestart(init)
  }

  /** The components that the process holds, wired to each other and to nothing else. */
  ghost predicate Assembled(server: Server, logs: LogIntake)
    reads server.db, server.gateway, server.gateway.registry, server.gateway.Objects()
    reads logs, logs.broker, logs.broker.queues, logs.table
  {
    && server.Valid() && logs.Valid()
    && logs.broker.historyCap == HISTORY_CAP && logs.broker.queueCap == SUBSCRIBER_QUEUE_CAP
    && server.Repr() !! LogRepr(logs)
  }

  ghost function LogRepr(logs: LogIntake): set<object>
    reads logs.broker
  {
    {logs, logs.broker, logs.table} + logs.broker.queues
  }

  /** A broker that has no subscribers yet, over a table. */
  ghost predicate Started(logs: LogIntake, table: LogRepository)
    reads logs.broker, table
  {
    logs.table == table && logs.start == |table.rows| && logs.broker.queues == {}
  }

  /** A new broker over the table. */
  method StartLogs(table: LogRepository) returns (logs: LogIntake)
    ensures logs.Valid() && Started(logs, table) && fresh(logs) && fresh(logs.broker)
    ensures logs.broker.historyCap == HISTORY_CAP && logs.broker.queueCap == SUBSCRIBER_QUEUE_CAP
  {
    logs := new LogIntake(table, HISTORY_CAP, SUBSCRIBER_QUEUE_CAP);
    assert logs.broker.queues == {};
  }

  /** A log message. */
  method OnLog(server: Server, logs: LogIntake, job: JobId, stream: Stream, sequence: int, chunk: string, t: int)
    requires Assembled(server, logs)
    modifies LogRepr(logs)
    ensures Assembled(server, logs) && logs.broker.queues == old(logs.broker.queues) && server.Repr() == old(server.Repr())
    ensures server.Abs() == old(server.Abs())
    ensures logs.table.rows == old(logs.table.rows) + [LogRow(job, stream, sequence, chunk, t)]
  {
    logs.OnLog(job, stream, sequence, chunk, t);
    assert server.gateway.Repr == old(server.gateway.Repr);
    assert server.Abs() == old(server.Abs());
  }

  lemma StillApart(before: set<object>, after: set<object>, apart: set<object>)
    requires before !! apart && after - before !! apart
    ensures after !! apart
  {
  }

  /** A step of the server, as far as the server goes. */
  method StepBeside(server: Server, logs: LogIntake, step: Label, clock: seq<int>) returns (ghost run: seq<Label>)
    requires Assembled(server, logs) && Rests(server.Abs())
    modifies server.Repr()
    ensures Assembled(server, logs) && fresh(server.Repr() - old(server.Repr())) && Rests(server.Abs())
    ensures Performed(server.cfg, old(server.Abs()), step, run, server.Abs())
  {
    ghost var before, apart := server.Repr(), LogRepr(logs);
    run := Perform(server, step, clock);
    StillApart(before, server.Repr(), apart);
    assert LogRepr(logs) == apart && logs.Valid();
  }

  /** A restart loses the broker as well. */
  method ForgetLogs(server: Server, logs: LogIntake) returns (logs': LogIntake)
    requires Assembled(server, logs)
    ensures Assembled(server, logs') && Started(logs', logs.table)
    ensures fresh(logs') && fresh(logs'.broker)
  {
    ghost var others := server.Repr();
    assert logs.table !in others;
    logs' := StartLogs(logs.table);
    assert server.Repr() == others;
    assert {logs', logs'.broker} !! others;
    assert LogRepr(logs') == {logs', logs'.broker, logs.table};
  }

  /** A step of the server. */
  method OnStep(server: Server, logs: LogIntake, step: Label, clock: seq<int>)
    returns (logs': LogIntake, ghost run: seq<Label>)
    requires Assembled(server, logs) && Rests(server.Abs())
    modifies server.Repr()
    ensures Assembled(server, logs') && fresh(server.Repr() - old(server.Repr())) && Rests(server.Abs())
    ensures if step.Restart? then fresh(logs') && fresh(logs'.broker) && Started(logs', logs.table) else logs' == logs
    ensures Performed(server.cfg, old(server.Abs()), step, run, server.Abs())
    ensures logs.table.rows == old(logs.table.rows)
  {
    run := StepBeside(server, logs, step, clock);
    logs' := logs;
    if step.Restart? {
      logs' := ForgetLogs(server, logs);
    }
  }

  // ---------------------------------------------------------------- any sequence of inputs

  /** The values that a process holds: the server's state, the log table, and where the broker's part begins. */
  datatype Values = Values(state: State, rows: seq<LogRow>, start: nat)

  ghost function ValuesOf(server: Server, logs: LogIntake): Values
    reads server, server.db, server.events, server.gateway, logs, logs.table
  {
    Values(server.Abs(), logs.table.rows, logs.start)
  }

  /** What one input does. */
  ghost predicate Reacts(cfg: Config, v: Values, input: Input, run: seq<Label>, v': Values) {
    match input
    case Step(step, clock) =>
      && Performed(cfg, v.state, step, run, v'.state)
      && v'.rows == v.rows && v'.start == if step.Restart? then |v.rows| else v.start
    case LogLine(job, stream, sequence, chunk, t) =>
      run == [] && v' == v.(rows := v.rows + [LogRow(job, stream, sequence, chunk, t)])
    case Ignored => run == [] && v' == v
  }

  /** What a sequence of inputs has done to a process that started without any rows. */
  ghost predicate Handled(cfg: Config, inputs: seq<Input>, parts: seq<seq<Label>>, v: Values) {
    && Follows(cfg, INITIAL, Steps(inputs), parts, v.state)
    && v.rows == LoggedRows(inputs) && v.start == AtRestart(inputs)
  }

  lemma {:induction false} HandledOneMore(cfg: Config, inputs: seq<Input>, i: nat, parts: seq<seq<Label>>, v: Values,
                                          run: seq<Label>, v': Values)
    requires i < |inputs| && Handled(cfg, inputs[..i], parts, v) && Reacts(cfg, v, inputs[i], run, v')
    ensures Handled(cfg, inputs[..i + 1], parts + (if inputs[i].Step? then [run] else []), v')
  {
    OneMoreInput(inputs, i);
    if inputs[i].Step? {
      FollowsSnoc(cfg, INITIAL, Steps(inputs[..i]), parts, v.state, inputs[i].step, run, v'.state);
    } else {
      assert parts + [] == parts && Steps(inputs[..i]) + [] == Steps(inputs[..i]);
    }
  }

  lemma {:induction false} OneMoreInput(inputs: seq<Input>, i: nat)
    requires i < |inputs|
    ensures var init, all, last := inputs[..i], inputs[..i + 1], inputs[i];
            && Steps(all) == Steps(init) + (if last.Step? then [last.step] else [])
            && LoggedRows(all) == LoggedRows(init)
                 + (if last.LogLine? then [LogRow(last.job, last.stream, last.sequence, last.chunk, last.t)] else [])
            && AtRestart(all) == if last.Step? && last.step.Restart? then |LoggedRows(init)| else AtRestart(init)
  {
    assert inputs[..i + 1][..i] == inputs[..i];
  }

  /** One more input. */
  method Handle(server: Server, logs: LogIntake, input: Input) returns (logs': LogIntake, ghost run: seq<Label>)
    requires Assembled(server, logs) && Rests(server.Abs())
    modifies server.Repr(), LogRepr(logs)
    ensures Assembled(server, logs') && fresh(server.Repr() - old(server.Repr())) && Rests(server.Abs())
    ensures logs'.table == logs.table && logs'.broker.queues <= old(logs.broker.queues)
    ensures (logs' == logs || fresh(logs')) && (logs'.broker == logs.broker || fresh(logs'.broker))
    ensures Reacts(server.cfg, old(ValuesOf(server, logs)), input, run, ValuesOf(server, logs'))
  {
    logs', run := logs, [];
    match input {
      case Step(step, clock) => logs', run := OnStep(server, logs, step, clock);
      case LogLine(job, stream, sequence, chunk, t) => OnLog(server, logs, job, stream, sequence, chunk, t);
      case Ignored =>
    }
  }

  /** One value after another, each by one input. */
  ghost predicate Chain(cfg: Config, inputs: seq<Input>, runs: seq<seq<Label>>, values: seq<Values>) {
    && |runs| <= |inputs| && |values| == |runs| + 1 && values[0] == Values(INITIAL, [], 0)
    && forall k :: 0 <= k < |runs| ==> Reacts(cfg, values[k], inputs[k], runs[k], values[k + 1])
  }

  lemma ChainGrows(cfg: Config, inputs: seq<Input>, runs: seq<seq<Label>>, values: seq<Values>, run: seq<Label>,
                   v: Values)
    requires Chain(cfg, inputs, runs, values) && |runs| < |inputs|
    requires Reacts(cfg, values[|runs|], inputs[|runs|], run, v)
    ensures Chain(cfg, inputs, runs + [run], values + [v])
  {
  }

  /** What the steps among the inputs have done, in order. */
  function Parts(inputs: seq<Input>, runs: seq<seq<Label>>): seq<seq<Label>>
    requires |inputs| == |runs|
  {
    if inputs == [] then []
    else
      var last := |inputs| - 1;
      Parts(inputs[..last], runs[..last]) + (if inputs[last].Step? then [runs[last]] else [])
  }

  lemma {:induction false} ChainIsHandled(cfg: Config, inputs: seq<Input>, runs: seq<seq<Label>>, values: seq<Values>,
                                          n: nat)
    requires Chain(cfg, inputs, runs, values) && n <= |runs|
    ensures Handled(cfg, inputs[..n], Parts(inputs[..n], runs[..n]), values[n])
  {
    if n == 0 {
      assert inputs[..0] == [] && runs[..0] == [];
    } else {
      ChainIsHandled(cfg, inputs, runs, values, n - 1);
      LinkIsHandled(cfg, inputs, runs, values, n - 1);
    }
  }

  lemma {:induction false} LinkIsHandled(cfg: Config, inputs: seq<Input>, runs: seq<seq<Label>>, values: seq<Values>,
                                         k: nat)
    requires Chain(cfg, inputs, runs, values) && k < |runs|
    requires Handled(cfg, inputs[..k], Parts(inputs[..k], runs[..k]), values[k])
    ensures Handled(cfg, inputs[..k + 1], Parts(inputs[..k + 1], runs[..k + 1]), values[k + 1])
  {
    assert runs[..k + 1][..k] == runs[..k] && inputs[..k + 1][..k] == inputs[..k];
    HandledOneMore(cfg, inputs, k, Parts(inputs[..k], runs[..k]), values[k], runs[k], values[k + 1]);
  }

  /** One more input, and one more link. */
  method HandleNext(server: Server, logs: LogIntake, input: Input, ghost inputs: seq<Input>,
                    ghost runs: seq<seq<Label>>, ghost values: seq<Values>)
    returns (logs': LogIntake, ghost runs': seq<seq<Label>>, ghost values': seq<Values>)
    requires Assembled(server, logs) && Chain(server.cfg, inputs, runs, values) && Rests(server.Abs())
    requires |runs| < |inputs| && input == inputs[|runs|] && values[|runs|] == ValuesOf(server, logs)
    modifies server.Repr(), LogRepr(logs)
    ensures Assembled(server, logs') && fresh(server.Repr() - old(server.Repr())) && Rests(server.Abs())
    ensures logs'.table == logs.table && logs'.broker.queues <= old(logs.broker.queues)
    ensures (logs' == logs || fresh(logs')) && (logs'.broker == logs.broker || fresh(logs'.broker))
    ensures |runs'| == |runs| + 1 && Chain(server.cfg, inputs, runs', values')
    ensures values'[|runs'|] == ValuesOf(server, logs')
  {
    ghost var run;
    logs', run := Handle(server, logs, input);
    ChainGrows(server.cfg, inputs, runs, values, run, ValuesOf(server, logs'));
    runs', values' := runs + [run], values + [ValuesOf(server, logs')];
  }

  /** The broker's part may be new; the table is the same, and no older queue was added. */
  twostate predicate Replaced(server: Server, logs: LogIntake, new logs': LogIntake)
    reads server, server.gateway, logs'.broker
  {
    && fresh(server.Repr() - old(server.Repr()))
    && logs'.table == logs.table && logs'.broker.queues <= old(logs.broker.queues)
    && (logs' == logs || fresh(logs')) && (logs'.broker == logs.broker || fresh(logs'.broker))
  }

  /** Let a process that has just started handle any inputs. */
  method Drive(server: Server, logs: LogIntake, inputs: seq<Input>)
    returns (logs': LogIntake, ghost runs: seq<seq<Label>>, ghost values: seq<Values>)
    requires Assembled(server, logs) && ValuesOf(server, logs) == Values(INITIAL, [], 0)
    modifies server.Repr(), LogRepr(logs)
    ensures Assembled(server, logs') && |runs| == |inputs| && Chain(server.cfg, inputs, runs, values)
    ensures values[|runs|] == ValuesOf(server, logs')
  {
    logs', runs, values := logs, [], [ValuesOf(server, logs)];
    for i := 0 to |inputs|
      invariant Assembled(server, logs') && |runs| == i && Chain(server.cfg, inputs, runs, values)
      invariant values[i] == ValuesOf(server, logs')
      invariant Rests(server.Abs()) && Replaced(server, logs, logs')
    {
      logs', runs, values := HandleNext(server, logs', inputs[i], inputs, runs, values);
    }
  }

  /** Start a process and let it handle any inputs. */
  method Serve(cfg: Config, inputs: seq<Input>)
    returns (server: Server, logs: LogIntake, ghost parts: seq<seq<Label>>)
    ensures Assembled(server, logs) && server.cfg == cfg && Handled(cfg, inputs, parts, ValuesOf(server, logs))
    ensures LoopRun(cfg, INITIAL, None, Joined(parts)) && server.Abs() == After(cfg, INITIAL, Joined(parts))
  {
    server, logs := BuildComponents(cfg);
    ghost var runs, values;
    logs, runs, values := Drive(server, logs, inputs);
    ChainIsHandled(cfg, inputs, runs, values, |inputs|);
    assert inputs[..|inputs|] == inputs;
    parts := Parts(inputs[..|inputs|], runs[..|inputs|]);
    FollowsIsLoopRun(cfg, INITIAL, Steps(inputs), parts, server.Abs());
  }

  /** The components of the process, wired together. */
  method BuildComponents(cfg: Config) returns (server: Server, logs: LogIntake)
    ensures Assembled(server, logs) && server.cfg == cfg && ValuesOf(server, logs) == Values(INITIAL, [], 0)
    ensures fresh(server.Repr()) && fresh(LogRepr(logs))
    ensures logs.broker.historyCap == 5000 && logs.broker.queueCap == 1000
  {
    server := BuildServer(cfg);
    var table := new LogRepository();
    logs := StartLogs(table);
  }

  /** What any inputs leave behind, read off the objects: each stored record is coherent and within its attempts, each
      job's listed events replay to its record, each message went to its job's agent unless it is a job message on a
      connection with the empty id, sends and attempts of a job agree if every segment was safe for them, and a
      subscriber would be handed the last rows logged since the last restart. */
  lemma {:induction false} ServedStateIsSound(server: Server, logs: LogIntake, inputs: seq<Input>,
                                              parts: seq<seq<Label>>, id: JobId, i: nat)
    requires Assembled(server, logs) && Handled(server.cfg, inputs, parts, ValuesOf(server, logs))
    requires server.cfg.maxAttempts >= 1
    ensures id in server.db.rows ==>
              && CoherentRow(server.cfg.maxAttempts, server.db.rows[id])
              && server.db.rows[id].attempts <= server.cfg.maxAttempts
    ensures Replay(ListForJob(server.events.rows, id)) == SummaryOf(server.db.Contents(), id)
    ensures i < |server.gateway.sent| ==>
              var m := server.gateway.sent[i];
              && m.conn in server.gateway.connections && m.job in server.db.rows
              && var reached := server.gateway.connections[m.conn].agentId == server.db.rows[m.job].agentId;
                 && (m.CancelMessage? ==> reached)
                 && (m.JobMessage? ==> (reached <==> Truthy(server.gateway.connections[m.conn].agentId)))
    ensures id in server.db.rows && CountSafeRun(server.cfg, INITIAL, None, Joined(parts)) ==>
              Accounted(server.db.Contents(), server.gateway.loop, id)
    ensures AtRestart(inputs) <= |LoggedRows(inputs)|
    ensures SameText(logs.broker.History(id), LastN(HISTORY_CAP, RowsFor(LoggedRows(inputs)[AtRestart(inputs)..], id, None)))
  {
    var run := Joined(parts);
    FollowsIsLoopRun(server.cfg, INITIAL, Steps(inputs), parts, server.Abs());
    LoopRunIsValid(server.cfg, INITIAL, None, run);
    assert server.Abs().table == server.db.Contents();
    if id in server.db.rows {
      History.ReachableJobsCoherent(server.cfg, run, id);
    }
    ReplayMatchesStore(server.cfg, run, id);
    if i < |server.gateway.sent| {
      var c := server.gateway.sent[i].conn;
      Wiring.MessagesReachTheirAgent(server.cfg, run, i);
      assert server.gateway.connections[c].View() == server.gateway.loop.conns[c];
    }
    if CountSafeRun(server.cfg, INITIAL, None, run) {
      SendsEqualAttempts(server.cfg, run, id);
    }
    HistoryAgreesWithTable(logs, id);
  }
}
