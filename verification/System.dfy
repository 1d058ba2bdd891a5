/**
 The control plane as a transition system. One label is one atomic segment of the event loop: the code a
 coroutine executes between two awaits. Coroutines that are suspended are entries of `procs`; the two
 scanning watchers keep the snapshot they iterate over. Messages from agents are labels that may occur at
 any time, in any order, for any job id and from a session with any agent id.
 */
module System {
  import opened Jobs
  import opened Ordering
  import opened Store

  datatype Config = Config(maxAttempts: nat, ackTimeout: int)

  /** A connection object. Objects are named by creation number, because identity matters. */
  datatype Conn = Conn(agentId: AgentId, inFlight: nat, lastHeartbeat: int)

  /** A suspended coroutine: queued on a dispatch lock, inside a job send, or inside a cancel send. */
  datatype Proc =
    | Waiting(agent: AgentId, lock: nat)
    | Sending(agent: AgentId, lock: nat, conn: nat, job: Row)
    | Cancelling(job: Row, cancelConn: Option<nat>)

  datatype Message = JobMessage(conn: nat, job: JobId) | CancelMessage(conn: nat, job: JobId)

  datatype Event =
    | SubmittedEvent
    | AckEvent
    | ReconciledEvent
    | StartedEvent(state: JobState)
    | ResultEvent(state: JobState, exitCode: Option<int>)
    | DispatchedEvent(attempt: nat)
    | RequeuedEvent(attempt: nat)
    | NoAckEvent(attempts: nat)
    | CancelledEvent
    | TimedOutEvent

  datatype EventRow = EventRow(jobId: JobId, event: Event)

  /** The ack watcher: its list of stale row copies, the next one to handle, and the dispatch it waits for. */
  datatype AckScan = AckIdle | AckScanning(worklist: seq<Row>, next: nat, awaiting: Option<nat>)

  /** The timeout watcher: likewise, and whether it is inside the cancel send for the next entry. */
  datatype TimerScan = TimerIdle | TimerScanning(worklist: seq<Row>, next: nat, firing: bool, conn: Option<nat>)

  /** What a restart loses, and the record of what was sent: connection objects by name, the registry, the
      lock dictionary, which coroutine holds which lock, the suspended coroutines, the next fresh name, and
      every message whose send succeeded. */
  datatype Loop = Loop(
    conns: map<nat, Conn>,
    registry: map<AgentId, nat>,
    locks: map<AgentId, nat>,
    held: map<nat, nat>,
    procs: map<nat, Proc>,
    next: nat,
    sent: seq<Message>)

  datatype State = State(table: Table, events: seq<EventRow>, loop: Loop, ack: AckScan, timer: TimerScan, clock: int)

  const EMPTY_LOOP := Loop(map[], map[], map[], map[], map[], 0, [])
  const INITIAL := State(EMPTY_TABLE, [], EMPTY_LOOP, AckIdle, TimerIdle, 0)

  datatype Label =
    | SubmitJob(job: Row)
    | CancelBegin(id: JobId)
    | CancelEnd(pid: nat, ok: bool, t: int)
    | Register(agent: AgentId, t: int)
    | Note(id: JobId, ack: bool)
    | Started(id: JobId, t: int)
    | Result(session: Option<AgentId>, id: JobId, exit: int, out: string, err: string, error: Option<string>, t: int)
    | Heartbeat(session: Option<AgentId>, t: int)
    | Acquire(pid: nat, pick: Option<JobId>)
    | SendOk(pid: nat, t1: int, t2: int)
    | SendFailed(pid: nat)
    | Disconnect(agent: AgentId)
    | HeartbeatSweep(cutoff: int)
    | Restart
    | AckBegin(now: int, worklist: seq<Row>)
    | AckHandle(t1: int, t2: int)
    | AckEnd
    | TimerBegin(now: int, worklist: seq<Row>)
    | TimerFire
    | TimerMark(ok: bool, t: int)
    | TimerEnd

  /** What the event table lists for a job: its events, in insertion order. */
  function ListForJob(events: seq<EventRow>, id: JobId): seq<Event> {
    if events == [] then []
    else
      var last := events[|events| - 1];
      ListForJob(events[..|events| - 1], id) + (if last.jobId == id then [last.event] else [])
  }

  // ---------------------------------------------------------------- what each segment asks of the stores

  /** The JobService call for a result message: a truthy error, else exit code zero, else a plain failure. */
  function ResultCall(id: JobId, exit: int, out: string, err: string, error: Option<string>, t: int): Call {
    if error.Some? && error.value != "" then MarkFailed(id, exit, out, err, Some(Reported(error.value)), t)
    else if exit == 0 then MarkSucceeded(id, exit, out, err, t)
    else MarkFailed(id, exit, out, err, None, t)
  }

  /** The ack watcher's decision, taken on the stale copy. */
  function AckCall(cfg: Config, entry: Row, t1: int, t2: int): Call {
    if entry.attempts >= cfg.maxAttempts then FailStale(entry.jobId, NoAck(cfg.maxAttempts), t1, t2)
    else Requeue(entry.jobId, t1)
  }

  predicate HasEntry(ack: AckScan) {
    ack.AckScanning? && ack.next < |ack.worklist|
  }

  predicate HasDeadline(timer: TimerScan) {
    timer.TimerScanning? && timer.next < |timer.worklist|
  }

  function CallOf(cfg: Config, s: State, l: Label): Call {
    match l
    case SubmitJob(job) => Submit(job)
    case CancelEnd(pid, _, t) =>
      if pid in s.loop.procs && s.loop.procs[pid].Cancelling? then MarkCancelled(s.loop.procs[pid].job.jobId, t)
      else NoCall
    case Started(id, t) => MarkRunning(id, t)
    case Result(_, id, exit, out, err, error, t) => ResultCall(id, exit, out, err, error, t)
    case SendOk(pid, t1, t2) =>
      if pid in s.loop.procs && s.loop.procs[pid].Sending? then MarkDispatched(s.loop.procs[pid].job.jobId, t1, t2)
      else NoCall
    case AckHandle(t1, t2) => if HasEntry(s.ack) then AckCall(cfg, s.ack.worklist[s.ack.next], t1, t2) else NoCall
    case TimerMark(_, t) =>
      if HasDeadline(s.timer) then MarkTimedOut(s.timer.worklist[s.timer.next].jobId, t) else NoCall
    case _ => NoCall
  }

  /** The event row the segment appends, computed from the job its JobService call returned. */
  function EventOf(cfg: Config, s: State, l: Label): Option<EventRow> {
    var reply := Reply(s.table, CallOf(cfg, s, l));
    match l
    case SubmitJob(job) => Some(EventRow(OwnerId(s.table, job), SubmittedEvent))
    case CancelEnd(pid, _, _) =>
      if pid in s.loop.procs && s.loop.procs[pid].Cancelling? then
        Some(EventRow(s.loop.procs[pid].job.jobId, CancelledEvent))
      else None
    case Note(id, ack) => Some(EventRow(id, if ack then AckEvent else ReconciledEvent))
    case Started(id, _) => if reply.Some? then Some(EventRow(id, StartedEvent(reply.value.state))) else None
    case Result(_, id, _, _, _, _, _) =>
      if reply.Some? then Some(EventRow(id, ResultEvent(reply.value.state, reply.value.exitCode))) else None
    case SendOk(pid, _, _) =>
      if pid in s.loop.procs && s.loop.procs[pid].Sending? then
        var job := s.loop.procs[pid].job;
        Some(EventRow(job.jobId, DispatchedEvent(if reply.Some? then reply.value.attempts else job.attempts)))
      else None
    case AckHandle(_, _) =>
      if HasEntry(s.ack) then
        var entry := s.ack.worklist[s.ack.next];
        Some(EventRow(entry.jobId,
                      if entry.attempts >= cfg.maxAttempts then NoAckEvent(entry.attempts)
                      else RequeuedEvent(entry.attempts)))
      else None
    case TimerMark(_, _) =>
      if HasDeadline(s.timer) then Some(EventRow(s.timer.worklist[s.timer.next].jobId, TimedOutEvent)) else None
    case _ => None
  }

  // ---------------------------------------------------------------- control state

  /** dispatch_pending up to its first await: look the lock up, creating it if needed, and queue on it. */
  function Enter(k: Loop, a: AgentId): Loop {
    var lock := if a in k.locks then k.locks[a] else k.next + 1;
    k.(locks := k.locks[a := lock], procs := k.procs[k.next := Waiting(a, lock)], next := k.next + 2)
  }

  function Lookup(k: Loop, a: AgentId): Option<nat> {
    if a in k.registry then Some(k.registry[a]) else None
  }

  function Suspend(k: Loop, p: Proc): Loop {
    k.(procs := k.procs[k.next := p], next := k.next + 1)
  }

  function Leave(k: Loop, pid: nat): Loop {
    k.(procs := k.procs - {pid})
  }

  /** Start the send of a picked job, inside the critical section. */
  function StartSend(k: Loop, pid: nat, conn: nat, job: Row): Loop
    requires pid in k.procs && k.procs[pid].Waiting?
  {
    var p := k.procs[pid];
    k.(held := k.held[p.lock := pid], procs := k.procs[pid := Sending(p.agent, p.lock, conn, job)])
  }

  /** Leave the critical section: the lock is released and the coroutine ends. */
  function Release(k: Loop, pid: nat): Loop
    requires pid in k.procs && k.procs[pid].Sending?
  {
    k.(held := k.held - {k.procs[pid].lock}, procs := k.procs - {pid})
  }

  function SetConn(k: Loop, c: nat, v: Conn): Loop {
    k.(conns := k.conns[c := v])
  }

  function Connect(k: Loop, a: AgentId, t: int): Loop {
    k.(conns := k.conns[k.next := Conn(a, 0, t)], registry := k.registry[a := k.next], next := k.next + 1)
  }

  function MarkBusy(c: Conn): Conn {
    c.(inFlight := c.inFlight + 1)
  }

  function MarkFree(c: Conn): Conn {
    c.(inFlight := if c.inFlight == 0 then 0 else c.inFlight - 1)
  }

  function FreeSession(k: Loop, a: AgentId): Loop {
    if a in k.registry && k.registry[a] in k.conns then SetConn(k, k.registry[a], MarkFree(k.conns[k.registry[a]]))
    else k
  }

  function Touch(k: Loop, a: AgentId, t: int): Loop {
    if a in k.registry && k.registry[a] in k.conns then
      SetConn(k, k.registry[a], k.conns[k.registry[a]].(lastHeartbeat := t))
    else k
  }

  function Deliver(k: Loop, ok: bool, m: Message): Loop {
    if ok then k.(sent := k.sent + [m]) else k
  }

  predicate IsStale(k: Loop, a: AgentId, cutoff: int) {
    a in k.registry && k.registry[a] in k.conns && k.conns[k.registry[a]].lastHeartbeat < cutoff
  }

  function Sweep(k: Loop, cutoff: int): Loop {
    k.(registry := map a | a in k.registry && !IsStale(k, a, cutoff) :: k.registry[a])
  }

  function Finish(k: Loop, pid: nat): Loop
    requires pid in k.procs && k.procs[pid].Sending? && k.procs[pid].conn in k.conns
  {
    var p := k.procs[pid];
    SetConn(Deliver(Release(k, pid), true, JobMessage(p.conn, p.job.jobId)), p.conn, MarkBusy(k.conns[p.conn]))
  }

  function LoopNext(cfg: Config, s: State, l: Label): Loop {
    var k := s.loop;
    match l
    case SubmitJob(job) => Enter(k, job.agentId)
    case CancelBegin(id) =>
      if id in s.table.rows then
        Suspend(k, Cancelling(s.table.rows[id], Lookup(k, s.table.rows[id].agentId)))
      else k
    case CancelEnd(pid, ok, _) =>
      if pid in k.procs && k.procs[pid].Cancelling? then
        var p := k.procs[pid];
        if p.cancelConn.Some? then Deliver(Leave(k, pid), ok, CancelMessage(p.cancelConn.value, p.job.jobId))
        else Leave(k, pid)
      else k
    case Register(a, t) => Enter(Connect(k, a, t), a)
    case Result(session, _, _, _, _, _, _) =>
      if session.Some? && Truthy(session.value) then Enter(FreeSession(k, session.value), session.value) else k
    case Heartbeat(session, t) => if session.Some? then Touch(k, session.value, t) else k
    case Acquire(pid, pick) =>
      if pid in k.procs && k.procs[pid].Waiting? then
        if pick.Some? && pick.value in s.table.rows && k.procs[pid].agent in k.registry then
          StartSend(k, pid, k.registry[k.procs[pid].agent], s.table.rows[pick.value])
        else Leave(k, pid)
      else k
    case SendOk(pid, _, _) =>
      if pid in k.procs && k.procs[pid].Sending? && k.procs[pid].conn in k.conns then Finish(k, pid) else k
    case SendFailed(pid) => if pid in k.procs && k.procs[pid].Sending? then Release(k, pid) else k
    case Disconnect(a) => k.(registry := k.registry - {a}, locks := k.locks - {a})
    case HeartbeatSweep(cutoff) => Sweep(k, cutoff)
    case Restart => k.(registry := map[], locks := map[], held := map[], procs := map[])
    case AckHandle(_, _) =>
      if HasEntry(s.ack) && s.ack.worklist[s.ack.next].attempts < cfg.maxAttempts then
        Enter(k, s.ack.worklist[s.ack.next].agentId)
      else k
    case TimerMark(ok, _) =>
      if HasDeadline(s.timer) && s.timer.conn.Some? then
        Deliver(k, ok, CancelMessage(s.timer.conn.value, s.timer.worklist[s.timer.next].jobId))
      else k
    case _ => k
  }

  function AckNext(cfg: Config, s: State, l: Label): AckScan {
    match l
    case AckBegin(_, worklist) => AckScanning(worklist, 0, None)
    case AckHandle(_, _) =>
      if HasEntry(s.ack) then
        var requeued := s.ack.worklist[s.ack.next].attempts < cfg.maxAttempts;
        AckScanning(s.ack.worklist, s.ack.next + 1, if requeued then Some(s.loop.next) else None)
      else s.ack
    case AckEnd => AckIdle
    case Restart => AckIdle
    case _ => s.ack
  }

  function TimerNext(s: State, l: Label): TimerScan {
    match l
    case TimerBegin(_, worklist) => TimerScanning(worklist, 0, false, None)
    case TimerFire =>
      if HasDeadline(s.timer) then
        s.timer.(firing := true, conn := Lookup(s.loop, s.timer.worklist[s.timer.next].agentId))
      else s.timer
    case TimerMark(_, _) =>
      if HasDeadline(s.timer) then TimerScanning(s.timer.worklist, s.timer.next + 1, false, None) else s.timer
    case TimerEnd => TimerIdle
    case Restart => TimerIdle
    case _ => s.timer
  }

  /** The clock readings of a segment, in the order they are taken. */
  function Times(l: Label): seq<int> {
    match l
    case SubmitJob(job) => [job.createdAt, job.updatedAt]
    case CancelEnd(_, _, t) => [t]
    case Register(_, t) => [t]
    case Started(_, t) => [t]
    case Result(_, _, _, _, _, _, t) => [t]
    case Heartbeat(_, t) => [t]
    case SendOk(_, t1, t2) => [t1, t2]
    case AckBegin(now, _) => [now]
    case AckHandle(t1, t2) => [t1, t2]
    case TimerBegin(now, _) => [now]
    case TimerMark(_, t) => [t]
    case _ => []
  }

  function Append(events: seq<EventRow>, e: Option<EventRow>): seq<EventRow> {
    if e.Some? then events + [e.value] else events
  }

  function ClockNext(clock: int, l: Label): int {
    var times := Times(l);
    if times == [] then clock else times[|times| - 1]
  }

  /** The state after one segment. */
  function Apply(cfg: Config, s: State, l: Label): State {
    State(Exec(s.table, CallOf(cfg, s, l)), Append(s.events, EventOf(cfg, s, l)),
          LoopNext(cfg, s, l), AckNext(cfg, s, l), TimerNext(s, l), ClockNext(s.clock, l))
  }

  // ---------------------------------------------------------------- when a segment can run

  /** What the two scans look for: stale dispatches, and running jobs past their deadline. */
  datatype Watch = AckWatch(now: int) | TimerWatch(now: int)

  predicate Due(cfg: Config, w: Watch, r: Row) {
    match w
    case AckWatch(now) => r.state == Dispatched && now - r.updatedAt > cfg.ackTimeout
    case TimerWatch(now) => r.state == Running && r.startedAt.Some? && now - r.startedAt.value > r.timeoutMs
  }

  predicate Lists(rows: seq<Row>, id: JobId) {
    exists k :: 0 <= k < |rows| && rows[k].jobId == id
  }

  /** The worklist holds a copy of exactly the rows that are due, once each, newest first. */
  ghost predicate Snapshot(cfg: Config, w: Watch, t: Table, worklist: seq<Row>) {
    && DistinctIds(worklist) && Sorted(NewestFirst, worklist)
    && (forall k :: 0 <= k < |worklist| ==>
          worklist[k].jobId in t.rows && t.rows[worklist[k].jobId] == worklist[k] && Due(cfg, w, worklist[k]))
    && (forall id :: id in t.rows && Due(cfg, w, t.rows[id]) ==> Lists(worklist, id))
  }

  /** The pending jobs dispatch_pending lists for an agent; an empty agent id is no filter. */
  predicate Candidate(a: AgentId, r: Row) {
    r.state == Pending && (Truthy(a) ==> r.agentId == a)
  }

  ghost predicate NoCandidate(t: Table, a: AgentId) {
    forall id :: id in t.rows ==> !Candidate(a, t.rows[id])
  }

  /** First by priority, then by creation time; ties are left open. */
  ghost predicate IsFirst(t: Table, a: AgentId, pick: JobId) {
    && pick in t.rows && Candidate(a, t.rows[pick])
    && forall id :: id in t.rows && Candidate(a, t.rows[id]) ==> !Before(t.rows[id], t.rows[pick])
  }

  predicate Idle(k: Loop, a: AgentId) {
    a in k.registry && k.registry[a] in k.conns && k.conns[k.registry[a]].inFlight == 0
  }

  /** What the critical section decides when it is entered. */
  ghost predicate PickOk(t: Table, k: Loop, a: AgentId, pick: Option<JobId>) {
    if Idle(k, a) && !NoCandidate(t, a) then pick.Some? && IsFirst(t, a, pick.value)
    else pick.None?
  }

  predicate IsNewRow(r: Row) {
    r == NewRow(r.jobId, r.agentId, r.request, r.timeoutMs, r.key, r.priority, r.createdAt, r.updatedAt)
  }

  /** What POST /jobs accepts: an agent, a positive timeout, and one of three priorities. */
  predicate Accepts(job: Row) {
    Truthy(job.agentId) && job.timeoutMs > 0 && 0 <= job.priority <= 2
  }

  predicate AckReady(s: State) {
    s.ack.AckScanning? && (s.ack.awaiting.Some? ==> s.ack.awaiting.value !in s.loop.procs)
  }

  ghost predicate Enabled(cfg: Config, s: State, l: Label) {
    match l
    case SubmitJob(job) => IsNewRow(job) && Accepts(job) && job.jobId !in s.table.rows
    case CancelBegin(id) => id in s.table.rows && !IsTerminal(s.table.rows[id].state)
    case CancelEnd(pid, _, _) => pid in s.loop.procs && s.loop.procs[pid].Cancelling?
    case Acquire(pid, pick) =>
      && pid in s.loop.procs && s.loop.procs[pid].Waiting? && s.loop.procs[pid].lock !in s.loop.held
      && PickOk(s.table, s.loop, s.loop.procs[pid].agent, pick)
    case SendOk(pid, _, _) => pid in s.loop.procs && s.loop.procs[pid].Sending? && s.loop.procs[pid].conn in s.loop.conns
    case SendFailed(pid) => pid in s.loop.procs && s.loop.procs[pid].Sending?
    case Disconnect(a) => Truthy(a)
    case AckBegin(now, worklist) => s.ack.AckIdle? && Snapshot(cfg, AckWatch(now), s.table, worklist)
    case AckHandle(_, _) => AckReady(s) && HasEntry(s.ack)
    case AckEnd => AckReady(s) && !HasEntry(s.ack)
    case TimerBegin(now, worklist) => s.timer.TimerIdle? && Snapshot(cfg, TimerWatch(now), s.table, worklist)
    case TimerFire => HasDeadline(s.timer) && !s.timer.firing
    case TimerMark(_, _) => HasDeadline(s.timer) && s.timer.firing
    case TimerEnd => s.timer.TimerScanning? && !HasDeadline(s.timer)
    case _ => true
  }

  // ---------------------------------------------------------------- runs

  ghost predicate ValidRun(cfg: Config, s: State, run: seq<Label>)
    decreases |run|
  {
    run == [] || (Enabled(cfg, s, run[0]) && ValidRun(cfg, Apply(cfg, s, run[0]), run[1..]))
  }

  function After(cfg: Config, s: State, run: seq<Label>): State
    decreases |run|
  {
    if run == [] then s else After(cfg, Apply(cfg, s, run[0]), run[1..])
  }

  /** The clock never goes back along the run. */
  predicate Ticking(clock: int, run: seq<Label>)
    decreases |run|
  {
    run == [] ||
    var times := Times(run[0]);
    && (forall i :: 0 <= i < |times| ==> clock <= times[i])
    && (forall i, j :: 0 <= i < j < |times| ==> times[i] <= times[j])
    && Ticking(ClockNext(clock, run[0]), run[1..])
  }
}
