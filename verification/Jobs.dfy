/**
 Values shared by the whole model: identifiers, job states and the job record.
 Timestamps are integers read from a clock that every operation receives as an input.
 */
module Jobs {
  datatype Option<+T> = None | Some(value: T)

  datatype JobId = JobId(text: string)
  datatype AgentId = AgentId(text: string)
  datatype Key = Key(text: string)

  datatype JobState = Pending | Dispatched | Running | Succeeded | Failed | TimedOut | Cancelled

  predicate IsTerminal(s: JobState) {
    s == Succeeded || s == Failed || s == TimedOut || s == Cancelled
  }

  /** The text of a job's `error` field: the ack watcher's message, or whatever the agent reported. */
  datatype ErrorText = NoAck(limit: nat) | Reported(text: string)

  /** One job record. `request` stands for image, command, metadata and correlation id, which no operation reads. */
  datatype Row = Row(
    jobId: JobId,
    agentId: AgentId,
    request: string,
    timeoutMs: int,
    key: Option<Key>,
    priority: int,
    createdAt: int,
    state: JobState,
    updatedAt: int,
    startedAt: Option<int>,
    finishedAt: Option<int>,
    attempts: nat,
    exitCode: Option<int>,
    error: Option<ErrorText>,
    stdout: string,
    stderr: string)

  /** A freshly built job: the two clock readings are taken by the two timestamp defaults. */
  function NewRow(id: JobId, agent: AgentId, request: string, timeoutMs: int, key: Option<Key>, priority: int,
                  created: int, updated: int): Row
  {
    Row(id, agent, request, timeoutMs, key, priority, created, Pending, updated, None, None, 0, None, None, "", "")
  }

  /** The truth value Python gives an agent id: the empty id is false. */
  predicate Truthy(a: AgentId) {
    a.text != ""
  }
}
