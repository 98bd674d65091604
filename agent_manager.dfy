/**
 * The in-process registry of live-avatar agents (backend/app/liveavatar_agent.py): one background
 * task per LiveAvatar session id, started idempotently, stopped by removing the handle first and then
 * tearing it down, and queried by `is_running`.
 *
 * The asyncio task is abstracted to a status (Running or Done) and a launch number: every task the
 * manager creates gets the next number, so "a fresh task" is "a number never handed out before".
 * The task finishing on its own (remote disconnect, failed connect) is the separate event
 * `TaskFinished`. All registry mutations happen in non-suspending statements, so the operations are
 * modelled as atomic steps.
 */
module LiveAvatarAgent {

  /** Whether `task.done()` would answer false (Running) or true (Done). */
  datatype TaskStatus = Running | Done

  /** What the runner closure was launched with: where it connects and as whom it publishes. */
  datatype RunnerParams = RunnerParams(
    livekitUrl: string,
    agentToken: string,
    avatarId: string,
    participantIdentity: string)

  /** The dataclass AgentHandle: a task (its launch number and status) and the room it owns. */
  datatype AgentHandle = AgentHandle(task: nat, status: TaskStatus, params: RunnerParams)

  /** `_by_session_id`, with the number of tasks launched so far. */
  datatype Registry = Registry(bySessionId: map<string, AgentHandle>, launched: nat)

  /** What `stop` did after removing the handle. */
  datatype Teardown =
    | NothingToStop
    | TornDown(handle: AgentHandle, disconnectRequested: bool, cancelled: bool)

  const IdentityPrefix: string := "liveavatar-agent-"

  /** The stable participant identity the agent joins the room with. */
  function ParticipantIdentity(sessionId: string): (r: string)
    ensures |r| == |IdentityPrefix| + |sessionId|
    ensures r[..|IdentityPrefix|] == IdentityPrefix && r[|IdentityPrefix|..] == sessionId
  {
    IdentityPrefix + sessionId
  }

  /** Distinct sessions publish under distinct identities. */
  lemma IdentityInjective(a: string, b: string)
    requires ParticipantIdentity(a) == ParticipantIdentity(b)
    ensures a == b
  {
    assert a == ParticipantIdentity(a)[|IdentityPrefix|..];
  }

  const Empty: Registry := Registry(map[], 0)

  /** Every registered task was launched by this registry, and no two sessions share a task. */
  ghost predicate Valid(r: Registry) {
    && (forall id :: id in r.bySessionId ==> r.bySessionId[id].task < r.launched)
    && (forall a, b :: a in r.bySessionId && b in r.bySessionId && a != b ==>
          r.bySessionId[a].task != r.bySessionId[b].task)
  }

  /** `start`: a no-op when the id is registered, else one fresh running task under that id. */
  function AfterStart(r: Registry, sessionId: string, livekitUrl: string, agentToken: string, avatarId: string): (r': Registry)
    ensures sessionId in r.bySessionId ==> r' == r
    ensures sessionId !in r.bySessionId ==>
      && r'.bySessionId.Keys == r.bySessionId.Keys + {sessionId}
      && r'.launched == r.launched + 1
      && r'.bySessionId[sessionId] == AgentHandle(r.launched, Running,
           RunnerParams(livekitUrl, agentToken, avatarId, "liveavatar-agent-" + sessionId))
      && (forall id :: id in r.bySessionId ==> r'.bySessionId[id] == r.bySessionId[id])
  {
    if sessionId in r.bySessionId then r
    else
      var params := RunnerParams(livekitUrl, agentToken, avatarId, ParticipantIdentity(sessionId));
      Registry(r.bySessionId[sessionId := AgentHandle(r.launched, Running, params)], r.launched + 1)
  }

  /**
   * `stop`: the handle is popped first; then its room is asked to disconnect and, if its task has not
   * finished, the task is cancelled. Failures of either are swallowed, so they do not appear here.
   */
  function AfterStop(r: Registry, sessionId: string): (res: (Registry, Teardown))
    ensures res.0.bySessionId == r.bySessionId - {sessionId} && res.0.launched == r.launched
    ensures sessionId !in r.bySessionId <==> res.1 == NothingToStop
    ensures sessionId in r.bySessionId ==>
      && res.1.handle == r.bySessionId[sessionId]
      && res.1.disconnectRequested
      && (res.1.cancelled <==> r.bySessionId[sessionId].status == Running)
  {
    var remaining := Registry(r.bySessionId - {sessionId}, r.launched);
    if sessionId !in r.bySessionId then (remaining, NothingToStop)
    else
      var h := r.bySessionId[sessionId];
      (remaining, TornDown(h, true, h.status == Running))
  }

  /** The task of a registered session finishes by itself; nothing is removed from the registry. */
  function AfterFinish(r: Registry, sessionId: string): (r': Registry)
    ensures r'.bySessionId.Keys == r.bySessionId.Keys && r'.launched == r.launched
    ensures sessionId in r.bySessionId ==>
      r'.bySessionId[sessionId] == r.bySessionId[sessionId].(status := Done)
    ensures forall id :: id in r.bySessionId && id != sessionId ==> r'.bySessionId[id] == r.bySessionId[id]
  {
    if sessionId in r.bySessionId then
      Registry(r.bySessionId[sessionId := r.bySessionId[sessionId].(status := Done)], r.launched)
    else r
  }

  /** `is_running`: a handle is registered and its task is not done. */
  predicate RunningIn(r: Registry, sessionId: string) {
    sessionId in r.bySessionId && r.bySessionId[sessionId].status == Running
  }

  lemma StartPreservesValid(r: Registry, sessionId: string, livekitUrl: string, agentToken: string, avatarId: string)
    requires Valid(r)
    ensures Valid(AfterStart(r, sessionId, livekitUrl, agentToken, avatarId))
  {
  }

  lemma StopPreservesValid(r: Registry, sessionId: string)
    requires Valid(r)
    ensures Valid(AfterStop(r, sessionId).0)
  {
  }

  lemma FinishPreservesValid(r: Registry, sessionId: string)
    requires Valid(r)
    ensures Valid(AfterFinish(r, sessionId))
  {
  }

  /** A second `start` for the same id changes nothing: no second task, no restart. */
  lemma StartIdempotent(r: Registry, sessionId: string, u1: string, t1: string, a1: string, u2: string, t2: string, a2: string)
    ensures var once := AfterStart(r, sessionId, u1, t1, a1);
      AfterStart(once, sessionId, u2, t2, a2) == once
  {
  }

  /**
   * After `stop` the session is not running, and a later `start` registers a running task whose
   * launch number no task registered before the `stop` ever had.
   */
  lemma StopThenStartIsFresh(r: Registry, sessionId: string, livekitUrl: string, agentToken: string, avatarId: string)
    requires Valid(r)
    ensures !RunningIn(AfterStop(r, sessionId).0, sessionId)
    ensures var r' := AfterStart(AfterStop(r, sessionId).0, sessionId, livekitUrl, agentToken, avatarId);
      && RunningIn(r', sessionId)
      && forall id :: id in r.bySessionId ==> r.bySessionId[id].task != r'.bySessionId[sessionId].task
  {
  }

  /** Operations on one session never change whether another session is running. */
  lemma SessionsIndependent(r: Registry, a: string, b: string, livekitUrl: string, agentToken: string, avatarId: string)
    requires a != b
    ensures RunningIn(AfterStart(r, a, livekitUrl, agentToken, avatarId), b) == RunningIn(r, b)
    ensures RunningIn(AfterStop(r, a).0, b) == RunningIn(r, b)
    ensures RunningIn(AfterFinish(r, a), b) == RunningIn(r, b)
  {
  }

  /** The operations a caller or the background task can perform, in the order they happen. */
  datatype Event =
    | Start(sessionId: string, livekitUrl: string, agentToken: string, avatarId: string)
    | Stop(sessionId: string)
    | Finish(sessionId: string)

  function Step(r: Registry, e: Event): Registry {
    match e
    case Start(id, u, t, a) => AfterStart(r, id, u, t, a)
    case Stop(id) => AfterStop(r, id).0
    case Finish(id) => AfterFinish(r, id)
  }

  /** The registry after the events of `trace`, applied in order to `r`. */
  function Replay(r: Registry, trace: seq<Event>): Registry
    decreases |trace|
  {
    if trace == [] then r else Step(Replay(r, trace[..|trace| - 1]), trace[|trace| - 1])
  }

  /** Stop and Finish are the events that end a session's running task. */
  predicate Ends(e: Event, sessionId: string) {
    (e.Stop? || e.Finish?) && e.sessionId == sessionId
  }

  /** `trace[k]` starts `sessionId` and no later event of `trace` ends it. */
  predicate StartedAndNotEnded(trace: seq<Event>, k: nat, sessionId: string)
    requires k < |trace|
  {
    && trace[k].Start? && trace[k].sessionId == sessionId
    && forall j :: k < j < |trace| ==> !Ends(trace[j], sessionId)
  }

  /** Every reachable registry is valid: at most one handle per id, every task launched exactly once. */
  lemma {:induction false} ReplayValid(trace: seq<Event>)
    ensures Valid(Replay(Empty, trace))
    decreases |trace|
  {
    if trace != [] {
      var prefix := trace[..|trace| - 1];
      ReplayValid(prefix);
      var last := trace[|trace| - 1];
      match last
      case Start(id, u, t, a) => StartPreservesValid(Replay(Empty, prefix), id, u, t, a);
      case Stop(id) => StopPreservesValid(Replay(Empty, prefix), id);
      case Finish(id) => FinishPreservesValid(Replay(Empty, prefix), id);
    }
  }

  /**
   * A session is running only if some `start` for it happened and neither `stop` nor the task
   * finishing happened for it since.
   */
  lemma {:induction false} RunningOnlyAfterStart(trace: seq<Event>, sessionId: string)
    requires RunningIn(Replay(Empty, trace), sessionId)
    ensures exists k :: 0 <= k < |trace| && StartedAndNotEnded(trace, k, sessionId)
    decreases |trace|
  {
    var prefix, last := trace[..|trace| - 1], trace[|trace| - 1];
    var before := Replay(Empty, prefix);
    if RunningIn(before, sessionId) && !(last.Start? && last.sessionId == sessionId) {
      RunningOnlyAfterStart(prefix, sessionId);
      var k :| 0 <= k < |prefix| && StartedAndNotEnded(prefix, k, sessionId);
      assert StartedAndNotEnded(trace, k, sessionId) by {
        assert forall j :: 0 <= j < |prefix| ==> trace[j] == prefix[j];
      }
    } else {
      assert StartedAndNotEnded(trace, |trace| - 1, sessionId);
    }
  }

  /** AgentManager: the registry object the HTTP layer calls. */
  class AgentManager {
    var bySessionId: map<string, AgentHandle>
    var launched: nat

    function State(): Registry
      reads this
    {
      Registry(bySessionId, launched)
    }

    constructor ()
      ensures State() == Empty
    {
      bySessionId := map[];
      launched := 0;
    }

    method Start(livekitUrl: string, agentToken: string, avatarId: string, sessionId: string)
      modifies this
      ensures State() == AfterStart(old(State()), sessionId, livekitUrl, agentToken, avatarId)
    {
      if sessionId in bySessionId {
        return;
      }
      var params := RunnerParams(livekitUrl, agentToken, avatarId, ParticipantIdentity(sessionId));
      var task := launched;
      launched := launched + 1;
      bySessionId := bySessionId[sessionId := AgentHandle(task, Running, params)];
    }

    /**
     * `disconnectFails` and `cancelFails` stand for the room or the awaited task raising during
     * teardown; both are suppressed, so the outcome does not depend on them.
     */
    method Stop(sessionId: string, disconnectFails: bool, cancelFails: bool) returns (teardown: Teardown)
      modifies this
      ensures (State(), teardown) == AfterStop(old(State()), sessionId)
    {
      if sessionId !in bySessionId {
        assert bySessionId - {sessionId} == bySessionId;
        teardown := NothingToStop;
        return;
      }
      var h := bySessionId[sessionId];
      bySessionId := bySessionId - {sessionId};
      var cancelled := false;
      if h.status == Running {
        cancelled := true;
      }
      teardown := TornDown(h, true, cancelled);
    }

    method IsRunning(sessionId: string) returns (running: bool)
      ensures running <==> sessionId in bySessionId && bySessionId[sessionId].status == Running
    {
      var registered := sessionId in bySessionId;
      running := registered && bySessionId[sessionId].status != Done;
    }

    /** The background task of `sessionId` returns or raises on its own. */
    method TaskFinished(sessionId: string)
      modifies this
      ensures State() == AfterFinish(old(State()), sessionId)
    {
      if sessionId in bySessionId {
        bySessionId := bySessionId[sessionId := bySessionId[sessionId].(status := Done)];
      }
    }
  }
}
