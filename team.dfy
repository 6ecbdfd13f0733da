/** core/team.py's BitNetTeam: the roster and its name index, per-agent
    performance counters, the task ledger with its priority queue, and
    `run`, which hands a task to the roster in the team's collaboration
    mode. Agent runs are answered by the oracle `crew` (see Collaboration). */
module Team {
  import opened Values
  import opened Text
  import opened Collaboration

  datatype Status = Pending | InProgress | Completed | Failed

  /** A task of the ledger. Creation, start and completion times are not modelled. */
  datatype Task = Task(id: string, description: string, assignedAgent: Option<string>, priority: int,
                       dependencies: seq<string>, status: Status, result: Option<string>)

  /** `f"task_{n}"`. */
  function TaskId(n: nat): string {
    "task_" + NatToString(n)
  }

  lemma TaskIdInjective(m: nat, n: nat)
    requires TaskId(m) == TaskId(n)
    ensures m == n
  {
    assert TaskId(m)[5..] == NatToString(m);
    assert TaskId(n)[5..] == NatToString(n);
    NatToStringInjective(m, n);
  }

  /** `{agent.name: agent for agent in agents}`: the last agent of a name wins. */
  function Roster(agents: seq<Agent>): map<string, Agent> {
    if agents == [] then map[]
    else Roster(agents[..|agents| - 1])[agents[|agents| - 1].name := agents[|agents| - 1]]
  }

  /** The index maps each roster name to its agent and nothing else. */
  predicate Indexed(agents: seq<Agent>, index: map<string, Agent>) {
    && (forall a :: a in agents ==> a.name in index && index[a.name] == a)
    && (forall n :: n in index ==> index[n] in agents && index[n].name == n)
  }

  /** With distinct names, the dictionary built from the roster indexes it. */
  lemma {:induction false} RosterIndexes(agents: seq<Agent>)
    requires UniqueNames(agents)
    ensures Indexed(agents, Roster(agents))
  {
    if agents != [] {
      var n := |agents| - 1;
      var front := agents[..n];
      var last := agents[n];
      assert UniqueNames(front) by {
        forall i, j | 0 <= i < j < |front| ensures front[i].name != front[j].name {
          assert front[i] == agents[i] && front[j] == agents[j];
        }
      }
      RosterIndexes(front);
      var index := Roster(front);
      assert Roster(agents) == index[last.name := last];
      forall a | a in front ensures a.name != last.name {
        var k :| 0 <= k < n && front[k] == a;
        assert agents[k] == a;
      }
      RosterExtends(front, index, last);
      assert front + [last] == agents;
    }
  }

  /** An agent whose name is new joins the index under its name. */
  lemma RosterExtends(front: seq<Agent>, index: map<string, Agent>, last: Agent)
    requires Indexed(front, index)
    requires forall a :: a in front ==> a.name != last.name
    ensures Indexed(front + [last], index[last.name := last])
  {
    var agents := front + [last];
    var index' := index[last.name := last];
    forall a | a in agents ensures a.name in index' && index'[a.name] == a {
      if a != last {
        assert a in front;
      }
    }
    forall n | n in index' ensures index'[n] in agents && index'[n].name == n {
      if n != last.name {
        assert index[n] in front;
      }
    }
  }

  /** The first position of `a` in the roster. */
  function Position(agents: seq<Agent>, a: Agent): (k: nat)
    requires a in agents
    ensures k < |agents| && agents[k] == a
    ensures forall j :: 0 <= j < k ==> agents[j] != a
  {
    if agents[0] == a then 0 else 1 + Position(agents[1..], a)
  }

  /** The name index of `__init__`: each agent under its name, a later
      agent replacing an earlier one of the same name. */
  method BuildIndex(roster: seq<Agent>) returns (built: map<string, Agent>)
    ensures built == Roster(roster)
    ensures UniqueNames(roster) ==> Indexed(roster, built)
  {
    built := map[];
    var i := 0;
    while i < |roster|
      invariant 0 <= i <= |roster|
      invariant built == Roster(roster[..i])
    {
      assert roster[..i + 1][..i] == roster[..i];
      built := built[roster[i].name := roster[i]];
      i := i + 1;
    }
    assert roster[..|roster|] == roster;
    if UniqueNames(roster) {
      RosterIndexes(roster);
    }
  }

  /** Every queued task is in the ledger and none is queued after one of
      lower priority. */
  predicate Prioritized(queue: seq<string>, tasks: map<string, Task>) {
    && (forall k :: 0 <= k < |queue| ==> queue[k] in tasks)
    && (forall i, j :: 0 <= i < j < |queue| ==> tasks[queue[i]].priority >= tasks[queue[j]].priority)
  }

  /** Where `create_task` inserts a task of `priority`: before the first
      queued task of strictly lower priority, else at the end. */
  function FirstLower(queue: seq<string>, tasks: map<string, Task>, priority: int): (r: nat)
    requires forall k :: 0 <= k < |queue| ==> queue[k] in tasks
    ensures r <= |queue|
    ensures forall j :: 0 <= j < r ==> tasks[queue[j]].priority >= priority
    ensures r < |queue| ==> tasks[queue[r]].priority < priority
  {
    if queue == [] || priority > tasks[queue[0]].priority then 0
    else 1 + FirstLower(queue[1..], tasks, priority)
  }

  function Insert(queue: seq<string>, k: nat, id: string): (r: seq<string>)
    requires k <= |queue|
    ensures |r| == |queue| + 1 && r[k] == id
    ensures forall j :: 0 <= j < k ==> r[j] == queue[j]
    ensures forall j :: k < j < |r| ==> r[j] == queue[j - 1]
  {
    queue[..k] + [id] + queue[k..]
  }

  /** `FirstLower` is the only position with every task before it at or
      above the priority and the task at it below. */
  lemma FirstLowerUnique(queue: seq<string>, tasks: map<string, Task>, priority: int, i: nat)
    requires forall k :: 0 <= k < |queue| ==> queue[k] in tasks
    requires i <= |queue|
    requires forall j :: 0 <= j < i ==> tasks[queue[j]].priority >= priority
    requires i < |queue| ==> tasks[queue[i]].priority < priority
    ensures i == FirstLower(queue, tasks, priority)
  {
  }

  /** Inserting at `FirstLower` keeps the queue in priority order. */
  lemma InsertPrioritized(queue: seq<string>, tasks: map<string, Task>, id: string)
    requires Prioritized(queue, tasks) && id in tasks
    ensures Prioritized(Insert(queue, FirstLower(queue, tasks, tasks[id].priority), id), tasks)
  {
    var p := tasks[id].priority;
    var k := FirstLower(queue, tasks, p);
    var q := Insert(queue, k, id);
    forall j | 0 <= j < |q| ensures q[j] in tasks {
      if j < k {
        assert q[j] == queue[j];
      } else if j > k {
        assert q[j] == queue[j - 1];
      }
    }
    forall i, j | 0 <= i < j < |q| ensures tasks[q[i]].priority >= tasks[q[j]].priority {
      if j < k {
        assert q[i] == queue[i] && q[j] == queue[j];
      } else if j == k {
        assert q[i] == queue[i];
      } else if i == k {
        assert q[j] == queue[j - 1];
        assert tasks[queue[k]].priority >= tasks[queue[j - 1]].priority || k == j - 1;
      } else if i < k {
        assert q[i] == queue[i] && q[j] == queue[j - 1];
      } else {
        assert q[i] == queue[i - 1] && q[j] == queue[j - 1];
      }
    }
  }


  /** The new task goes after every queued task of the same or higher priority. */
  lemma InsertAfterPeers(queue: seq<string>, tasks: map<string, Task>, id: string)
    requires Prioritized(queue, tasks) && id in tasks
    ensures var k := FirstLower(queue, tasks, tasks[id].priority);
            forall j :: 0 <= j < |queue| && tasks[queue[j]].priority >= tasks[id].priority ==> j < k
  {
    var k := FirstLower(queue, tasks, tasks[id].priority);
    if k < |queue| {
      assert forall j :: k <= j < |queue| ==> tasks[queue[j]].priority <= tasks[queue[k]].priority;
    }
  }

  /** The ledger's numbering: every task id is `task_<n>` for a distinct
      `n` below the next number, and each task carries its id. */
  predicate Numbered(next: nat, numbers: map<string, nat>, tasks: map<string, Task>) {
    && next >= 1
    && numbers.Keys == tasks.Keys
    && (forall id :: id in numbers ==> 1 <= numbers[id] < next && id == TaskId(numbers[id]))
    && (forall id :: id in tasks ==> tasks[id].id == id)
  }

  /** Every dependency is a completed task: the task may be queued. */
  predicate Unblocked(dependencies: seq<string>, completed: set<string>) {
    forall d :: d in dependencies ==> d in completed
  }

  /** Queued ids are distinct tasks of the ledger, in priority order when
      prioritization is on, and completed ids are completed tasks. */
  predicate Queued(tasks: map<string, Task>, queue: seq<string>, completed: set<string>, prioritize: bool) {
    && (forall k :: 0 <= k < |queue| ==> queue[k] in tasks)
    && (forall i, j :: 0 <= i < j < |queue| ==> queue[i] != queue[j])
    && (prioritize ==> Prioritized(queue, tasks))
    && (forall id :: id in completed ==> id in tasks && tasks[id].status == Completed)
  }

  /** The next id is fresh, and registering it under the next number keeps the numbering. */
  lemma NumberNext(next: nat, numbers: map<string, nat>, tasks: map<string, Task>, task: Task)
    requires Numbered(next, numbers, tasks) && task.id == TaskId(next)
    ensures task.id !in tasks
    ensures Numbered(next + 1, numbers[task.id := next], tasks[task.id := task])
  {
    if task.id in tasks {
      TaskIdInjective(numbers[task.id], next);
    }
  }

  /** A new pending task in the ledger leaves the queue and the completed set valid. */
  lemma QueuedRegister(tasks: map<string, Task>, queue: seq<string>, completed: set<string>, prioritize: bool, task: Task)
    requires Queued(tasks, queue, completed, prioritize) && task.id !in tasks
    ensures task.id !in queue
    ensures Queued(tasks[task.id := task], queue, completed, prioritize)
  {
    var tasks' := tasks[task.id := task];
    assert forall k :: 0 <= k < |queue| ==> tasks'[queue[k]] == tasks[queue[k]];
  }

  /** Marking a ledger task completed keeps the queue and the completed set valid. */
  lemma QueuedComplete(tasks: map<string, Task>, queue: seq<string>, completed: set<string>, prioritize: bool,
                       id: string, result: string)
    requires Queued(tasks, queue, completed, prioritize) && id in tasks
    ensures Queued(tasks[id := tasks[id].(status := Completed, result := Some(result))], queue, completed + {id}, prioritize)
  {
    var tasks' := tasks[id := tasks[id].(status := Completed, result := Some(result))];
    assert forall k :: 0 <= k < |queue| ==> tasks'[queue[k]].priority == tasks[queue[k]].priority;
  }

  /** Queuing a new ledger task at the end keeps the queue valid without prioritization. */
  lemma QueuedAppend(tasks: map<string, Task>, queue: seq<string>, completed: set<string>, id: string)
    requires Queued(tasks, queue, completed, false) && id in tasks && id !in queue
    ensures Queued(tasks, queue + [id], completed, false)
  {
  }

  /** Queuing a new ledger task at `FirstLower` keeps the queue valid with prioritization. */
  lemma QueuedInsert(tasks: map<string, Task>, queue: seq<string>, completed: set<string>, id: string)
    requires Queued(tasks, queue, completed, true) && id in tasks && id !in queue
    ensures Queued(tasks, Insert(queue, FirstLower(queue, tasks, tasks[id].priority), id), completed, true)
  {
    InsertPrioritized(queue, tasks, id);
    var k := FirstLower(queue, tasks, tasks[id].priority);
    var q := Insert(queue, k, id);
    forall i, j | 0 <= i < j < |q| ensures q[i] != q[j] {
      var i' := if i < k then i else i - 1;
      var j' := if j < k then j else j - 1;
      if i != k && j != k {
        assert q[i] == queue[i'] && q[j] == queue[j'];
      } else if i == k {
        assert q[j] == queue[j'];
      } else {
        assert q[i] == queue[i'];
      }
    }
  }

  /** `enable_performance_tracking` decides whether runs touch the counters. */
  function Track(on: bool, perf: map<string, Perf>, events: seq<Event>): (r: map<string, Perf>)
    ensures r.Keys == perf.Keys
  {
    if on then Tally(perf, events) else perf
  }

  lemma TrackAppend(on: bool, perf: map<string, Perf>, events: seq<Event>, e: Event)
    ensures Track(on, Track(on, perf, events), [e]) == Track(on, perf, events + [e])
  {
    TallyAppend(perf, events, e);
    TallyOne(Tally(perf, events), e);
  }

  lemma TrackConcat(on: bool, perf: map<string, Perf>, first: seq<Event>, rest: seq<Event>)
    ensures Track(on, Track(on, perf, first), rest) == Track(on, perf, first + rest)
  {
    TallyConcat(perf, first, rest);
  }

  /** The coordinator of `run`: the named agent when the name is non-empty
      and known, else the first of the roster. */
  function Coordinator(agents: seq<Agent>, index: map<string, Agent>, requested: Option<string>): (c: Agent)
    requires agents != []
    ensures Indexed(agents, index) ==> c in agents
    ensures Indexed(agents, index) && requested.Some? && requested.value != "" && requested.value in index ==> c.name == requested.value
    ensures requested.None? || requested.value == "" || requested.value !in index ==> c == agents[0]
  {
    if requested.Some? && requested.value != "" && requested.value in index then index[requested.value] else agents[0]
  }

  /** What `run` returns when the team has made `start` agent runs so far. */
  function RunOutcome(mode: Mode, crew: Crew, parse: PlanParser, counters: Counters, start: nat, agents: seq<Agent>,
                      index: map<string, Agent>, task: string, requested: Option<string>): RunResult
  {
    if agents == [] then Answer("No virtual co-workers available in the team.")
    else Play(mode, crew, counters, start, agents, index, Coordinator(agents, index, requested), task, parse).result
  }

  class Team {
    const name: string
    const mode: Mode
    const prioritize: bool
    const trackPerformance: bool
    const crew: Crew
    const parsePlan: PlanParser

    var agents: seq<Agent>
    var index: map<string, Agent>
    var performance: map<string, Perf>
    var tasks: map<string, Task>
    var queue: seq<string>
    var completedTasks: set<string>
    var nextTaskId: nat
    /** How many agent runs the team has made: the oracle's first argument. */
    var calls: nat
    /** The number each task id was made from. */
    ghost var numbers: map<string, nat>

    /** Names are distinct, the index matches the roster and, with
        tracking on, every roster name has counters and no other name does. */
    ghost predicate RosterValid()
      reads this`agents, this`index, this`performance
    {
      && UniqueNames(agents)
      && Indexed(agents, index)
      && (trackPerformance ==> performance.Keys == index.Keys)
    }

    /** Every task id is `task_<n>` for a distinct `n` below `next_task_id`,
        queued ids are distinct tasks of the ledger, in priority order when
        prioritization is on, and completed ids are completed tasks
        (see `Numbered` and `Queued`). */
    ghost predicate LedgerValid()
      reads this`nextTaskId, this`numbers, this`tasks, this`queue, this`completedTasks
    {
      Numbered(nextTaskId, numbers, tasks) && Queued(tasks, queue, completedTasks, prioritize)
    }

    ghost predicate Valid()
      reads this`agents, this`index, this`performance, this`nextTaskId, this`numbers, this`tasks, this`queue, this`completedTasks
    {
      RosterValid() && LedgerValid()
    }

    /** `BitNetTeam(agents, name, collaboration_mode=…, …)`: counters start
        at zero for every roster name, the ledger is empty. */
    constructor(name: string, agents: Option<seq<Agent>>, mode: Mode, prioritize: bool, trackPerformance: bool,
                crew: Crew, parsePlan: PlanParser)
      ensures this.name == name && this.mode == mode && this.prioritize == prioritize
      ensures this.trackPerformance == trackPerformance && this.crew == crew && this.parsePlan == parsePlan
      ensures this.agents == agents.GetOr([]) && index == Roster(this.agents)
      ensures performance == map n | n in index :: Fresh
      ensures tasks == map[] && queue == [] && completedTasks == {} && nextTaskId == 1 && calls == 0
      ensures LedgerValid()
      ensures UniqueNames(this.agents) ==> RosterValid()
    {
      var roster := agents.GetOr([]);
      var built := BuildIndex(roster);
      this.name := name;
      this.mode := mode;
      this.prioritize := prioritize;
      this.trackPerformance := trackPerformance;
      this.crew := crew;
      this.parsePlan := parsePlan;
      this.agents := roster;
      index := built;
      performance := map n | n in built :: Fresh;
      tasks := map[];
      queue := [];
      completedTasks := {};
      nextTaskId := 1;
      calls := 0;
      numbers := map[];
    }

    /** The first position of `a` in the roster, by a scan as `list.remove` does. */
    method Locate(a: Agent) returns (k: nat)
      requires a in agents
      ensures k == Position(agents, a)
    {
      k := 0;
      while agents[k] != a
        invariant k <= Position(agents, a)
        invariant forall j :: 0 <= j < k ==> agents[j] != a
        decreases Position(agents, a) - k
      {
        k := k + 1;
      }
    }

    /** `add_agent` as written: it warns about a duplicate name and still
        appends, so the roster then holds two agents of that name. */
    method AddAgentAsWritten(agent: Agent)
      modifies this`agents, this`index, this`performance
      ensures agents == old(agents) + [agent]
      ensures index == old(index)[agent.name := agent]
      ensures performance == if trackPerformance then old(performance)[agent.name := Fresh] else old(performance)
      ensures old(RosterValid()) && agent.name in old(index) ==> !UniqueNames(agents)
    {
      if old(RosterValid()) && agent.name in index {
        var k := Position(agents, index[agent.name]);
        assert agents[k].name == agent.name;
        assert (agents + [agent])[|agents|] == agent;
        assert (agents + [agent])[k] == agents[k];
      }
      agents := agents + [agent];
      index := index[agent.name := agent];
      if trackPerformance {
        performance := performance[agent.name := Fresh];
      }
    }

    /** `add_agent` as its warning says: an agent of a name already in the
        team replaces that agent in its roster position; a new name is appended.
        Either way its counters start afresh. */
    method AddAgent(agent: Agent)
      modifies this`agents, this`index, this`performance
      ensures agent.name in old(index) && old(index)[agent.name] in old(agents) ==>
                agents == old(agents)[Position(old(agents), old(index)[agent.name]) := agent]
      ensures !(agent.name in old(index) && old(index)[agent.name] in old(agents)) ==> agents == old(agents) + [agent]
      ensures index == old(index)[agent.name := agent]
      ensures performance == if trackPerformance then old(performance)[agent.name := Fresh] else old(performance)
      ensures old(RosterValid()) ==> RosterValid()
    {
      if agent.name in index && index[agent.name] in agents {
        var k := Locate(index[agent.name]);
        ghost var before := agents;
        agents := agents[k := agent];
        if old(RosterValid()) {
          ReplaceKeepsIndexed(before, old(index), k, agent);
        }
      } else {
        if old(RosterValid()) {
          assert agent.name !in index;
          forall j | 0 <= j < |agents| ensures agents[j].name != agent.name {
            assert agents[j] in agents;
          }
        }
        agents := agents + [agent];
      }
      index := index[agent.name := agent];
      if trackPerformance {
        performance := performance[agent.name := Fresh];
      }
    }

    /** `remove_agent`: `False` for an unknown name; otherwise the agent
        leaves the roster and the index, and its counters go when tracking is on.
        The source requires the indexed agent to be in the roster
        (`list.remove` raises otherwise). */
    method RemoveAgent(agentName: string) returns (removed: bool)
      requires agentName in index ==> index[agentName] in agents
      modifies this`agents, this`index, this`performance
      ensures removed == (agentName in old(index))
      ensures !removed ==> agents == old(agents) && index == old(index) && performance == old(performance)
      ensures removed ==> var k := Position(old(agents), old(index)[agentName]);
                agents == old(agents)[..k] + old(agents)[k + 1..]
      ensures removed ==> index == old(index) - {agentName}
      ensures removed ==> performance == if trackPerformance then old(performance) - {agentName} else old(performance)
      ensures old(RosterValid()) ==> RosterValid()
    {
      if agentName !in index {
        return false;
      }
      var k := Locate(index[agentName]);
      ghost var valid := RosterValid();
      if valid {
        RemoveKeepsRoster(agents, index, performance, trackPerformance, agentName, k);
      }
      agents, index := agents[..k] + agents[k + 1..], index - {agentName};
      if trackPerformance && agentName in performance {
        performance := performance - {agentName};
      }
      removed := true;
    }

    /** `get_agent`: the agent of that name, if the team has one. */
    function GetAgent(agentName: string): (r: Option<Agent>)
      reads this
      ensures RosterValid() ==> (r.Some? <==> exists a :: a in agents && a.name == agentName)
      ensures RosterValid() && r.Some? ==> r.value in agents && r.value.name == agentName
    {
      if agentName in index then Some(index[agentName]) else None
    }

    /** `create_task`: a pending task under a fresh id `task_<n>`, queued
        when every dependency is completed (before the first task of lower
        priority when prioritization is on, else at the end). */
    method CreateTask(description: string, assignee: Option<string>, priority: int, dependencies: Option<seq<string>>)
      returns (id: string)
      requires LedgerValid()
      modifies this`tasks, this`queue, this`nextTaskId, this`numbers
      ensures id == TaskId(old(nextTaskId)) && id !in old(tasks) && nextTaskId == old(nextTaskId) + 1
      ensures tasks == old(tasks)[id := Task(id, description, assignee, priority, dependencies.GetOr([]), Pending, None)]
      ensures queue == if !Unblocked(dependencies.GetOr([]), completedTasks) then old(queue)
                       else if prioritize then Insert(old(queue), FirstLower(old(queue), tasks, priority), id)
                       else old(queue) + [id]
      ensures LedgerValid()
    {
      id := TaskId(nextTaskId);
      var task := Task(id, description, assignee, priority, dependencies.GetOr([]), Pending, None);
      NumberNext(nextTaskId, numbers, tasks, task);
      QueuedRegister(tasks, queue, completedTasks, prioritize, task);
      nextTaskId, numbers, tasks := nextTaskId + 1, numbers[task.id := nextTaskId], tasks[task.id := task];
      if Unblocked(task.dependencies, completedTasks) {
        Enqueue(id);
      }
    }

    /** The queue insertion of `create_task`: before the first queued task
        of lower priority when prioritization is on, else at the end. */
    method Enqueue(id: string)
      requires Queued(tasks, queue, completedTasks, prioritize) && id in tasks && id !in queue
      modifies this`queue
      ensures queue == if prioritize then Insert(old(queue), FirstLower(old(queue), tasks, tasks[id].priority), id)
                       else old(queue) + [id]
      ensures Queued(tasks, queue, completedTasks, prioritize)
    {
      if prioritize {
        var i := InsertionPoint(tasks[id].priority);
        QueuedInsert(tasks, queue, completedTasks, id);
        queue := Insert(queue, i, id);
      } else {
        QueuedAppend(tasks, queue, completedTasks, id);
        queue := queue + [id];
      }
    }

    /** The scan of `create_task` for the first queued task of lower priority. */
    method InsertionPoint(priority: int) returns (i: nat)
      requires forall k :: 0 <= k < |queue| ==> queue[k] in tasks
      ensures i == FirstLower(queue, tasks, priority)
    {
      i := 0;
      while i < |queue| && !(priority > tasks[queue[i]].priority)
        invariant 0 <= i <= |queue|
        invariant forall j :: 0 <= j < i ==> tasks[queue[j]].priority >= priority
      {
        i := i + 1;
      }
      FirstLowerUnique(queue, tasks, priority, i);
    }

    /** `get_task`. */
    function GetTask(id: string): (r: Option<Task>)
      reads this
      ensures r.Some? <==> id in tasks
      ensures LedgerValid() && r.Some? ==> r.value.id == id
    {
      if id in tasks then Some(tasks[id]) else None
    }

    /** One agent run. */
    method Ask(agent: Agent, brief: Brief) returns (reply: Reply)
      modifies this`calls
      ensures reply == crew(old(calls), agent, brief) && calls == old(calls) + 1
    {
      reply := crew(calls, agent, brief);
      calls := calls + 1;
    }

    /** The names a run may look up without a `KeyError`. */
    function Tracking(): (r: Counters)
      reads this`performance
      ensures r.Untracked? <==> !trackPerformance
      ensures r.Tracked? ==> r.keys == performance.Keys
    {
      if trackPerformance then Tracked(performance.Keys) else Untracked
    }

    /** One counter update, when tracking is on. The lookup of a name
        without counters raises `KeyError` (`ok` is false) before anything
        changes. */
    method Note(e: Event) returns (ok: bool)
      modifies this`performance
      ensures ok == Counted(old(Tracking()), e.name)
      ensures performance == if ok then Track(trackPerformance, old(performance), [e]) else old(performance)
    {
      TallyOne(performance, e);
      ok := !trackPerformance || e.name in performance;
      if trackPerformance && ok {
        performance := Apply(performance, e);
      }
    }

    /** A timed agent run whose outcome is recorded under `name`: a
        success with its elapsed time, or a failure. When `name` has no
        counters the run has happened but its recording raises (`ok` is
        false) and records nothing. */
    method Perform(agent: Agent, name: string, brief: Brief, ghost perf0: map<string, Perf>, ghost events: seq<Event>)
      returns (reply: Reply, ok: bool, ghost events': seq<Event>)
      requires performance == Track(trackPerformance, perf0, events)
      modifies this`calls, this`performance
      ensures reply == crew(old(calls), agent, brief) && calls == old(calls) + 1
      ensures ok == Counted(old(Tracking()), name)
      ensures events' == if ok then events + [Outcome(name, reply)] else events
      ensures performance == Track(trackPerformance, perf0, events')
    {
      reply := Ask(agent, brief);
      ok := Note(Outcome(name, reply));
      TrackAppend(trackPerformance, perf0, events, Outcome(name, reply));
      events' := if ok then events + [Outcome(name, reply)] else events;
    }

    /** `run`: the empty team's message, or the coordinator's mode run. */
    method Run(task: string, requested: Option<string>) returns (r: RunResult)
      modifies this`calls, this`performance
      ensures agents == [] ==> r == Answer("No virtual co-workers available in the team.") && calls == old(calls) && performance == old(performance)
      ensures agents != [] ==>
                var p := Play(mode, crew, old(Tracking()), old(calls), agents, index, Coordinator(agents, index, requested), task, parsePlan);
                && r == p.result
                && calls == p.calls
                && performance == Track(trackPerformance, old(performance), p.events)
      ensures r == RunOutcome(mode, crew, parsePlan, old(Tracking()), old(calls), agents, index, task, requested)
      ensures old(RosterValid()) ==> RosterValid()
    {
      if agents == [] {
        return Answer("No virtual co-workers available in the team.");
      }
      var coordinator := Coordinator(agents, index, requested);
      match mode
      case Parallel => r := RunParallel(task, coordinator);
      case Hierarchical => r := RunHierarchical(task, coordinator);
      case Consensus => r := RunConsensus(task, coordinator);
      case _ => r := RunSequential(task, coordinator);
    }

    /** `run_async` up to the start of its thread: a task of priority 2
        for the requested coordinator, queued at once as it has no
        dependencies; its id is returned. */
    method RunAsync(task: string, requested: Option<string>) returns (id: string)
      requires LedgerValid()
      modifies this`tasks, this`queue, this`nextTaskId, this`numbers
      ensures id == TaskId(old(nextTaskId)) && id !in old(tasks) && nextTaskId == old(nextTaskId) + 1
      ensures tasks == old(tasks)[id := Task(id, task, requested, 2, [], Pending, None)]
      ensures queue == if prioritize then Insert(old(queue), FirstLower(old(queue), tasks, 2), id) else old(queue) + [id]
      ensures LedgerValid()
    {
      id := CreateTask(task, requested, 2, None);
    }

    /** The thread of `run_async`, run to completion without interleaving:
        `run`, and on an answer the task is completed with it. A run that
        raises ends the thread and leaves the task as it was. */
    method RunThread(id: string, task: string, requested: Option<string>) returns (r: RunResult)
      requires LedgerValid() && id in tasks
      modifies this`tasks, this`completedTasks, this`calls, this`performance
      ensures r == RunOutcome(mode, crew, parsePlan, old(Tracking()), old(calls), agents, index, task, requested)
      ensures tasks == if r.Answer? then old(tasks)[id := old(tasks)[id].(status := Completed, result := Some(r.text))]
                       else old(tasks)
      ensures completedTasks == if r.Answer? then old(completedTasks) + {id} else old(completedTasks)
      ensures LedgerValid()
    {
      r := Run(task, requested);
      if r.Answer? {
        Complete(id, r.text);
      }
    }

    /** The thread's last act in `run_async`: the task is completed with the
        run's answer and joins the completed set. */
    method Complete(id: string, result: string)
      requires LedgerValid() && id in tasks
      modifies this`tasks, this`completedTasks
      ensures tasks == old(tasks)[id := old(tasks)[id].(status := Completed, result := Some(result))]
      ensures completedTasks == old(completedTasks) + {id}
      ensures LedgerValid()
    {
      QueuedComplete(tasks, queue, completedTasks, prioritize, id, result);
      tasks := tasks[id := tasks[id].(status := Completed, result := Some(result))];
      completedTasks := completedTasks + {id};
    }

    /** `get_performance_metrics`: the counters when tracking is on, else
        nothing; in a valid team, one entry per roster name. */
    function PerformanceMetrics(): (r: map<string, Perf>)
      reads this
      ensures !trackPerformance ==> r == map[]
      ensures trackPerformance && RosterValid() ==> r.Keys == index.Keys
      ensures forall n :: n in r ==> n in performance && r[n] == performance[n]
    {
      if trackPerformance then performance else map[]
    }

    /** `get_agent_performance`: the counters of a name when tracking is on
        and the name has them; in a valid team, exactly the roster names do. */
    function AgentPerformance(agentName: string): (r: Option<Perf>)
      reads this
      ensures r.Some? <==> trackPerformance && agentName in performance
      ensures trackPerformance && RosterValid() ==> (r.Some? <==> exists a :: a in agents && a.name == agentName)
      ensures r.Some? ==> r == Some(PerformanceMetrics()[agentName])
    {
      if trackPerformance && agentName in performance then Some(performance[agentName]) else None
    }

    /** `_run_sequential`. */
    method RunSequential(task: string, coordinator: Agent) returns (r: RunResult)
      modifies this`calls, this`performance
      ensures var p := SequentialRun(crew, old(Tracking()), old(calls), agents, coordinator, task);
              r == p.result && calls == p.calls && performance == Track(trackPerformance, old(performance), p.events)
    {
      ghost var perf0 := performance;
      ghost var counters := Tracking();
      var first := Ask(coordinator, Plain(task));
      if first.Raised? {
        return Propagated(first.message);
      }
      var ok := Note(Credit(coordinator.name));
      if !ok {
        return Propagated(KeyMessage(coordinator.name));
      }
      assert Tracking() == counters;
      ghost var start := calls;
      ghost var events;
      r, events := RelaySteps(task, coordinator, first.text);
      TrackConcat(trackPerformance, perf0, [Credit(coordinator.name)], events);
      ghost var p := SequentialRun(crew, counters, old(calls), agents, coordinator, task);
      match FirstRaise(RelayMisses(counters, agents, coordinator))
      case None =>
        assert p.events == [Credit(coordinator.name)] + events;
      case Some(i) =>
        assert p.events == [Credit(coordinator.name)] + events;
    }

    /** One hand-off of `_run_sequential`: `agent` continues from
        `current`, and a successful reply becomes the new current result.
        When `agent` has no counters its run is not recorded and the loop
        raises (`ok` is false). */
    method HandOn(agent: Agent, task: string, current: string, ghost credited: map<string, Perf>,
                  ghost events: seq<Event>, ghost outputs: seq<Option<string>>)
      returns (current': string, ok: bool, ghost events': seq<Event>, ghost outputs': seq<Option<string>>)
      requires performance == Track(trackPerformance, credited, events)
      modifies this`calls, this`performance
      ensures ok == Counted(old(Tracking()), agent.name)
      ensures ok ==> Relayed(current', calls, events', outputs')
                     == Passed(Relayed(current, old(calls), events, outputs), agent, crew(old(calls), agent, Handoff(task, current)))
      ensures !ok ==> calls == old(calls) + 1 && events' == events
      ensures performance == Track(trackPerformance, credited, events')
    {
      var reply;
      reply, ok, events' := Perform(agent, agent.name, Handoff(task, current), credited, events);
      if reply.Done? {
        current', outputs' := reply.text, outputs + [Some(reply.text)];
      } else {
        current', outputs' := current, outputs + [None];
      }
    }

    /** The hand-off loop of `_run_sequential`: every agent but the
        coordinator, in roster order, on the latest successful result,
        until one of them has no counters. */
    method RelaySteps(task: string, coordinator: Agent, first: string) returns (r: RunResult, ghost events: seq<Event>)
      modifies this`calls, this`performance
      ensures match FirstRaise(RelayMisses(old(Tracking()), agents, coordinator))
              case None =>
                var h := Relay(crew, old(calls), Others(agents, coordinator), task, first);
                r == Answer(h.result) && calls == h.calls && events == h.events
              case Some(i) =>
                var h := Relay(crew, old(calls), Others(agents[..i], coordinator), task, first);
                r == Propagated(KeyMessage(agents[i].name)) && calls == h.calls + 1 && events == h.events
      ensures performance == Track(trackPerformance, old(performance), events)
    {
      ghost var start := calls;
      ghost var credited := performance;
      ghost var counters := Tracking();
      ghost var misses := RelayMisses(counters, agents, coordinator);
      var current := first;
      ghost var outputs := [];
      events := [];
      var i := 0;
      while i < |agents|
        invariant 0 <= i <= |agents|
        invariant forall k :: 0 <= k < i ==> !misses[k]
        invariant Relay(crew, start, Others(agents[..i], coordinator), task, first) == Relayed(current, calls, events, outputs)
        invariant performance == Track(trackPerformance, credited, events)
        invariant Tracking() == counters
      {
        var agent := agents[i];
        RelayTurn(crew, start, agents, coordinator, task, first, i, Relayed(current, calls, events, outputs));
        if agent != coordinator {
          var ok;
          ghost var before := Tracking();
          current, ok, events, outputs := HandOn(agent, task, current, credited, events, outputs);
          assert misses[i] == !ok by {
            assert before == counters;
          }
          if !ok {
            FirstRaiseAt(misses, i);
            return Propagated(KeyMessage(agent.name)), events;
          }
        }
        forall k | 0 <= k < i + 1 ensures !misses[k] {
          if k < i {
          }
        }
        i := i + 1;
      }
      assert agents[..|agents|] == agents;
      assert FirstRaise(misses) == None;
      r := Answer(current);
    }

    /** `_run_hierarchical`. */
    method RunHierarchical(task: string, coordinator: Agent) returns (r: RunResult)
      modifies this`calls, this`performance
      ensures var p := HierarchicalRun(crew, old(Tracking()), old(calls), agents, index, coordinator, task, parsePlan);
              r == p.result && calls == p.calls && performance == Track(trackPerformance, old(performance), p.events)
    {
      ghost var perf0 := performance;
      var response := Ask(coordinator, HierarchyPlan(task, Names(Others(agents, coordinator), AgentName)));
      if response.Raised? {
        return Propagated(response.message);
      }
      var planned := ExtractPlan(response.text, parsePlan);
      if planned.NoPlan? {
        return Answer(planned.message);
      }
      r := Direct(task, coordinator, planned.steps);
    }

    /** `_run_hierarchical` once the plan is parsed: the delegation loop,
        then the synthesis unless a step raised. */
    method Direct(task: string, coordinator: Agent, steps: seq<Step>) returns (r: RunResult)
      modifies this`calls, this`performance
      ensures var p := Directed(crew, old(Tracking()), old(calls), index, coordinator, task, steps);
              r == p.result && calls == p.calls && performance == Track(trackPerformance, old(performance), p.events)
    {
      ghost var perf0 := performance;
      ghost var counters := Tracking();
      ghost var start := calls;
      ghost var events;
      var results, stop;
      results, stop, events := DelegateSteps(steps, perf0);
      ghost var misses := DelegateMisses(counters, index, steps);
      if stop.Some? {
        assert FirstRaise(misses) == stop;
        return Propagated(KeyMessage(steps[stop.value].agentName));
      }
      assert FirstRaise(misses).None? && Delegate(crew, start, index, steps) == Delegated(results, calls, events);
      assert Tracking() == counters;
      r := Synthesize(task, coordinator, steps, results, perf0, events);
    }

    /** The end of `_run_hierarchical`: the coordinator's synthesis of the
        step results, then its credit, which raises `KeyError` when it has
        no counters. */
    method Synthesize(task: string, coordinator: Agent, steps: seq<Step>, results: seq<string>,
                      ghost perf0: map<string, Perf>, ghost events: seq<Event>) returns (r: RunResult)
      requires performance == Track(trackPerformance, perf0, events)
      modifies this`calls, this`performance
      ensures var p := Concluded(crew, old(Tracking()), coordinator, task, steps, Delegated(results, old(calls), events));
              r == p.result && calls == p.calls && performance == Track(trackPerformance, perf0, p.events)
    {
      var last := Ask(coordinator, Synthesis(task, Subtasks(steps), results));
      if last.Raised? {
        return Propagated(last.message);
      }
      var ok := Note(Credit(coordinator.name));
      if !ok {
        return Propagated(KeyMessage(coordinator.name));
      }
      TrackAppend(trackPerformance, perf0, events, Credit(coordinator.name));
      r := Answer(last.text);
    }

    /** The delegation loop of `_run_hierarchical`: each step to its named
        agent, in plan order, until a known agent has no counters (`stop`
        is that step). */
    method DelegateSteps(steps: seq<Step>, ghost perf0: map<string, Perf>)
      returns (results: seq<string>, stop: Option<nat>, ghost events: seq<Event>)
      requires performance == perf0
      modifies this`calls, this`performance
      ensures stop == FirstRaise(DelegateMisses(old(Tracking()), index, steps))
      ensures stop.None? ==> Delegate(crew, old(calls), index, steps) == Delegated(results, calls, events)
      ensures stop.Some? ==> var d := Delegate(crew, old(calls), index, steps[..stop.value]);
                             calls == d.calls + 1 && events == d.events
      ensures performance == Track(trackPerformance, perf0, events)
    {
      ghost var start := calls;
      ghost var counters := Tracking();
      ghost var misses := DelegateMisses(counters, index, steps);
      results, events := [], [];
      var i := 0;
      while i < |steps|
        invariant 0 <= i <= |steps|
        invariant forall k :: 0 <= k < i ==> !misses[k]
        invariant Delegate(crew, start, index, steps[..i]) == Delegated(results, calls, events)
        invariant performance == Track(trackPerformance, perf0, events)
        invariant Tracking() == counters
      {
        var step := steps[i];
        DelegateNext(crew, start, index, steps, i, Delegated(results, calls, events));
        if step.agentName !in index {
          results := results + [NotFound(step.agentName)];
        } else {
          var reply, ok;
          ghost var before := Tracking();
          reply, ok, events := Perform(index[step.agentName], step.agentName, Plain(step.subtask), perf0, events);
          assert misses[i] == !ok by {
            assert before == counters;
          }
          if !ok {
            FirstRaiseAt(misses, i);
            return results, Some(i), events;
          }
          results := results + [Shown(reply)];
        }
        forall k | 0 <= k < i + 1 ensures !misses[k] {
          if k < i {
          }
        }
        i := i + 1;
      }
      assert steps[..|steps|] == steps;
      stop := None;
    }

    /** `_run_consensus`. */
    method RunConsensus(task: string, coordinator: Agent) returns (r: RunResult)
      modifies this`calls, this`performance
      ensures var p := ConsensusRun(crew, old(Tracking()), old(calls), agents, coordinator, task);
              r == p.result && calls == p.calls && performance == Track(trackPerformance, old(performance), p.events)
    {
      ghost var events;
      var responses, stop;
      responses, stop, events := PollAll(task);
      if stop.Some? {
        return Propagated(KeyMessage(agents[stop.value].name));
      }
      var last := Ask(coordinator, ConsensusBrief(task, responses));
      if last.Raised? {
        return Propagated(last.message);
      }
      r := Answer(last.text);
    }

    /** One turn of `_run_consensus`: `agent`'s text or error is stored
        under its name, unless it has no counters (`ok` is false). */
    method Hear(agent: Agent, task: string, responses: Dict<string>, ghost perf0: map<string, Perf>, ghost events: seq<Event>)
      returns (responses': Dict<string>, ok: bool, ghost events': seq<Event>)
      requires performance == Track(trackPerformance, perf0, events)
      modifies this`calls, this`performance
      ensures ok == Counted(old(Tracking()), agent.name)
      ensures ok ==> Polled(responses', calls, events') == Heard(Polled(responses, old(calls), events), agent, crew(old(calls), agent, Plain(task)))
      ensures !ok ==> calls == old(calls) + 1 && events' == events
      ensures performance == Track(trackPerformance, perf0, events')
    {
      var reply;
      reply, ok, events' := Perform(agent, agent.name, Plain(task), perf0, events);
      responses' := Set(responses, agent.name, Shown(reply));
    }

    /** The loop of `_run_consensus`: every agent once on the task, until
        one has no counters (`stop` is its position). */
    method PollAll(task: string) returns (responses: Dict<string>, stop: Option<nat>, ghost events: seq<Event>)
      modifies this`calls, this`performance
      ensures stop == FirstRaise(PollMisses(old(Tracking()), agents))
      ensures stop.None? ==> Polled(responses, calls, events) == Consult(crew, old(calls), agents, task)
      ensures stop.Some? ==> var poll := Consult(crew, old(calls), agents[..stop.value], task);
                             calls == poll.calls + 1 && events == poll.events
      ensures performance == Track(trackPerformance, old(performance), events)
    {
      ghost var perf0 := performance;
      ghost var start := calls;
      ghost var counters := Tracking();
      ghost var misses := PollMisses(counters, agents);
      responses := [];
      events := [];
      var i := 0;
      while i < |agents|
        invariant 0 <= i <= |agents|
        invariant forall k :: 0 <= k < i ==> !misses[k]
        invariant Consult(crew, start, agents[..i], task) == Polled(responses, calls, events)
        invariant performance == Track(trackPerformance, perf0, events)
        invariant Tracking() == counters
      {
        ConsultNext(crew, start, agents, task, i, Polled(responses, calls, events));
        var ok;
        ghost var before := Tracking();
        responses, ok, events := Hear(agents[i], task, responses, perf0, events);
        assert misses[i] == !ok by {
          assert before == counters;
        }
        if !ok {
          FirstRaiseAt(misses, i);
          return responses, Some(i), events;
        }
        forall k | 0 <= k < i + 1 ensures !misses[k] {
          if k < i {
          }
        }
        i := i + 1;
      }
      assert agents[..|agents|] == agents;
      assert FirstRaise(misses) == None;
      stop := None;
    }

    /** The dependency results of a parallel step, in dependency order. */
    method DependencyResults(deps: seq<int>, results: seq<Option<string>>) returns (text: string)
      ensures text == DependencyText(deps, results)
    {
      text := "";
      var i := 0;
      while i < |deps|
        invariant 0 <= i <= |deps|
        invariant text == DependencyText(deps[..i], results)
      {
        DependencyNext(deps, results, i);
        var d := deps[i];
        if 0 <= d < |results| && results[d].Some? {
          text := text + ("Result from step " + NatToString(d) + ": " + results[d].value + "\n\n");
        }
        i := i + 1;
      }
      assert deps[..|deps|] == deps;
    }

    /** `execute_step(i, plan[i])` when step `i` is ready. */
    method Execute(task: string, plan: seq<Step>, results: seq<Option<string>>, i: nat,
                   ghost events: seq<Event>, ghost perf0: map<string, Perf>)
      returns (results': seq<Option<string>>, ghost events': seq<Event>)
      requires |results| == |plan| && i < |plan|
      requires performance == Track(trackPerformance, perf0, events)
      modifies this`calls, this`performance
      ensures Board(results', calls, events') == Attempt(crew, old(Tracking()), index, task, plan, Board(results, old(calls), events), i)
      ensures performance == Track(trackPerformance, perf0, events')
    {
      results', events' := results, events;
      if !Ready(plan, results, i) {
        return;
      }
      var step := plan[i];
      if step.agentName !in index {
        results' := results[i := Some(NotFound(step.agentName))];
        return;
      }
      var dependencies := DependencyResults(step.dependsOn, results);
      var reply, ok;
      reply, ok, events' := Perform(index[step.agentName], step.agentName, StepBrief(task, step.subtask, dependencies), perf0, events);
      results' := results[i := Some(if ok then Shown(reply) else KeyErrorShown(step.agentName, reply))];
    }

    /** The final text of the parallel mode. */
    method ReportOf(plan: seq<Step>, results: seq<Option<string>>) returns (text: string)
      requires |results| == |plan|
      ensures text == Report(plan, results)
    {
      var lines := "";
      var i := 0;
      while i < |plan|
        invariant 0 <= i <= |plan|
        invariant lines == StepReport(plan[..i], results[..i])
      {
        StepReportNext(plan, results, i);
        lines := lines + StepLine(i, plan[i], results[i]);
        i := i + 1;
      }
      assert plan[..|plan|] == plan && results[..|results|] == results;
      text := "Task Execution Results:\n\n" + lines;
    }

    /** The launch of `_run_parallel`: every step without dependencies, in plan order. */
    method LaunchSteps(task: string, steps: seq<Step>, ghost perf0: map<string, Perf>)
      returns (results: seq<Option<string>>, ghost events: seq<Event>)
      requires performance == perf0
      modifies this`calls, this`performance
      ensures |results| == |steps|
      ensures Board(results, calls, events) == Launch(crew, old(Tracking()), index, task, steps, Board(Blank(|steps|), old(calls), []), |steps|)
      ensures performance == Track(trackPerformance, perf0, events)
    {
      results := Blank(|steps|);
      events := [];
      ghost var initial := Board(results, calls, events);
      ghost var counters := Tracking();
      var i := 0;
      while i < |steps|
        invariant 0 <= i <= |steps| && |results| == |steps|
        invariant Board(results, calls, events) == Launch(crew, counters, index, task, steps, initial, i)
        invariant performance == Track(trackPerformance, perf0, events)
        invariant Tracking() == counters
      {
        LaunchNext(crew, counters, index, task, steps, initial, i);
        if steps[i].dependsOn == [] {
          assert Launch(crew, counters, index, task, steps, initial, i + 1) == Attempt(crew, counters, index, task, steps, Board(results, calls, events), i);
          results, events := Execute(task, steps, results, i, events, perf0);
        }
        i := i + 1;
      }
    }

    /** One polling pass of `_run_parallel`: every ready step, in plan order. */
    method SweepSteps(task: string, steps: seq<Step>, results: seq<Option<string>>,
                      ghost events: seq<Event>, ghost perf0: map<string, Perf>)
      returns (results': seq<Option<string>>, ghost events': seq<Event>)
      requires |results| == |steps|
      requires performance == Track(trackPerformance, perf0, events)
      modifies this`calls, this`performance
      ensures Board(results', calls, events') == Sweep(crew, old(Tracking()), index, task, steps, Board(results, old(calls), events), |steps|)
      ensures performance == Track(trackPerformance, perf0, events')
    {
      ghost var b := Board(results, calls, events);
      ghost var counters := Tracking();
      results', events' := results, events;
      var i := 0;
      while i < |steps|
        invariant 0 <= i <= |steps| && |results'| == |steps|
        invariant Board(results', calls, events') == Sweep(crew, counters, index, task, steps, b, i)
        invariant performance == Track(trackPerformance, perf0, events')
        invariant Tracking() == counters
      {
        assert Sweep(crew, counters, index, task, steps, b, i + 1) == Attempt(crew, counters, index, task, steps, Board(results', calls, events'), i);
        results', events' := Execute(task, steps, results', i, events', perf0);
        i := i + 1;
      }
    }

    /** `_run_parallel`, every started step running to completion before
        the next is examined. Where the source would poll forever, `Hangs`. */
    method RunParallel(task: string, coordinator: Agent) returns (r: RunResult)
      modifies this`calls, this`performance
      ensures var p := ParallelRun(crew, old(Tracking()), old(calls), agents, index, coordinator, task, parsePlan);
              r == p.result && calls == p.calls && performance == Track(trackPerformance, old(performance), p.events)
    {
      var response := Ask(coordinator, ParallelPlan(task, Names(agents, AgentName)));
      if response.Raised? {
        return Propagated(response.message);
      }
      var planned := ExtractPlan(response.text, parsePlan);
      if planned.NoPlan? {
        return Answer(planned.message);
      }
      r := RunSteps(task, planned.steps);
    }

    /** The steps of a parsed parallel plan: launch them all, then sweep
        until every step has a result or a sweep changes nothing. */
    method RunSteps(task: string, steps: seq<Step>) returns (r: RunResult)
      modifies this`calls, this`performance
      ensures var p := Orchestrated(crew, old(Tracking()), index, task, steps, old(calls));
              r == p.result && calls == p.calls && performance == Track(trackPerformance, old(performance), p.events)
    {
      ghost var perf0 := performance;
      ghost var counters := Tracking();
      ghost var events;
      var results;
      results, events := LaunchSteps(task, steps, perf0);
      ghost var launched := Board(results, calls, events);
      while Unfinished(results) > 0
        invariant |results| == |steps|
        invariant Schedule(crew, counters, index, task, steps, Board(results, calls, events)) == Schedule(crew, counters, index, task, steps, launched)
        invariant performance == Track(trackPerformance, perf0, events)
        invariant Tracking() == counters
        decreases Unfinished(results)
      {
        var before := results;
        ghost var b := Board(results, calls, events);
        results, events := SweepSteps(task, steps, results, events, perf0);
        SweepExtends(crew, counters, index, task, steps, b, |steps|);
        ExtendsUnfinished(b.results, results);
        if results == before {
          SweepIdle(crew, counters, index, task, steps, b, |steps|);
          return Hangs;
        }
      }
      var report := ReportOf(steps, results);
      r := Answer(report);
    }
  }

  /** Putting an agent of the same name in place of another keeps the index
      consistent. */
  lemma ReplaceKeepsIndexed(agents: seq<Agent>, index: map<string, Agent>, k: nat, agent: Agent)
    requires UniqueNames(agents) && Indexed(agents, index)
    requires k < |agents| && agents[k].name == agent.name
    ensures UniqueNames(agents[k := agent])
    ensures Indexed(agents[k := agent], index[agent.name := agent])
  {
    var after := agents[k := agent];
    var index' := index[agent.name := agent];
    assert forall j :: 0 <= j < |after| ==> after[j].name == agents[j].name;
    forall a | a in after ensures a.name in index' && index'[a.name] == a {
      var j :| 0 <= j < |after| && after[j] == a;
      if j != k {
        assert agents[j] == a && a.name != agent.name;
      }
    }
    assert after[k] == agent;
    forall n | n in index' ensures index'[n] in after && index'[n].name == n {
      if n != agent.name {
        ReplacedStays(agents, index, k, agent, n);
      }
    }
  }

  /** An agent indexed under another name than the replaced one stays in the roster. */
  lemma ReplacedStays(agents: seq<Agent>, index: map<string, Agent>, k: nat, agent: Agent, n: string)
    requires Indexed(agents, index)
    requires k < |agents| && agents[k].name == agent.name
    requires n in index && n != agent.name
    ensures index[n] in agents[k := agent]
  {
    var a := index[n];
    var j :| 0 <= j < |agents| && agents[j] == a;
    assert agents[k := agent][j] == a;
  }

  /** The roster without position `k`, position by position. */
  lemma Dropped(agents: seq<Agent>, k: nat)
    requires k < |agents|
    ensures var after := agents[..k] + agents[k + 1..];
      && |after| == |agents| - 1
      && (forall j :: 0 <= j < k ==> after[j] == agents[j])
      && (forall j :: k <= j < |after| ==> after[j] == agents[j + 1])
  {
  }

  /** Removing a member from a consistent roster, index and performance
      table leaves them consistent. */
  lemma RemoveKeepsRoster(agents: seq<Agent>, index: map<string, Agent>, performance: map<string, Perf>,
                          track: bool, name: string, k: nat)
    requires UniqueNames(agents) && Indexed(agents, index)
    requires track ==> performance.Keys == index.Keys
    requires name in index && index[name] in agents && k == Position(agents, index[name])
    ensures UniqueNames(agents[..k] + agents[k + 1..])
    ensures Indexed(agents[..k] + agents[k + 1..], index - {name})
    ensures track ==> (if name in performance then performance - {name} else performance).Keys == (index - {name}).Keys
  {
    assert agents[k].name == name;
    RemoveKeepsIndexed(agents, index, k);
  }

  /** A member left on the roster after position `k` is dropped is still
      indexed under its name once that name is removed. */
  lemma KeptStays(agents: seq<Agent>, index: map<string, Agent>, k: nat, a: Agent)
    requires UniqueNames(agents) && Indexed(agents, index)
    requires k < |agents| && a in agents[..k] + agents[k + 1..]
    ensures a.name in index - {agents[k].name} && (index - {agents[k].name})[a.name] == a
  {
    var after := agents[..k] + agents[k + 1..];
    Dropped(agents, k);
    var j :| 0 <= j < |after| && after[j] == a;
    var j' := if j < k then j else j + 1;
    assert agents[j'] == a && j' != k;
  }

  /** Removing the indexed agent and its name keeps the index consistent. */
  lemma RemoveKeepsIndexed(agents: seq<Agent>, index: map<string, Agent>, k: nat)
    requires UniqueNames(agents) && Indexed(agents, index)
    requires k < |agents|
    ensures UniqueNames(agents[..k] + agents[k + 1..])
    ensures Indexed(agents[..k] + agents[k + 1..], index - {agents[k].name})
  {
    var gone := agents[k];
    var after := agents[..k] + agents[k + 1..];
    var index' := index - {gone.name};
    DroppedUnique(agents, k);
    forall a | a in after ensures a.name in index' && index'[a.name] == a {
      KeptStays(agents, index, k, a);
    }
    forall n | n in index' ensures index'[n] in after && index'[n].name == n {
      RemovedStays(agents, index, k, n);
    }
  }

  /** Dropping one member keeps the names distinct. */
  lemma DroppedUnique(agents: seq<Agent>, k: nat)
    requires UniqueNames(agents) && k < |agents|
    ensures UniqueNames(agents[..k] + agents[k + 1..])
  {
    var after := agents[..k] + agents[k + 1..];
    Dropped(agents, k);
    forall i, j | 0 <= i < j < |after| ensures after[i].name != after[j].name {
      var i' := if i < k then i else i + 1;
      var j' := if j < k then j else j + 1;
      assert after[i] == agents[i'] && after[j] == agents[j'];
    }
  }

  /** An agent indexed under another name than the removed one stays in the roster. */
  lemma RemovedStays(agents: seq<Agent>, index: map<string, Agent>, k: nat, n: string)
    requires Indexed(agents, index)
    requires k < |agents| && n in index && n != agents[k].name
    ensures index[n] in agents[..k] + agents[k + 1..]
  {
    var a := index[n];
    var j :| 0 <= j < |agents| && agents[j] == a;
    Dropped(agents, k);
    if j < k {
      assert (agents[..k] + agents[k + 1..])[j] == a;
    } else {
      assert (agents[..k] + agents[k + 1..])[j - 1] == a;
    }
  }
}
