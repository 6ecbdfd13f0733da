/** What the collaboration modes of core/team.py compute, as functions of
    the roster and of an oracle `crew` for agent runs. `crew(n, agent, brief)`
    is what the `n`-th agent run the team makes returns: a text and the time
    it took, or the exception it raised. Wall-clock times are part of the
    oracle's answer rather than read from a clock. */
module Collaboration {
  import opened Values
  import opened Text

  /** A team member. `id` stands for object identity (`agent == coordinator`
      compares objects), `name` is `agent.name`. */
  datatype Agent = Agent(id: nat, name: string)

  /** The outcome of one `agent.run(prompt)`. */
  datatype Reply = Done(text: string, elapsed: real) | Raised(message: string)

  /** The prompts the team sends. The one-line hand-off of the sequential
      mode is a `Plain` text in full; the multi-line templates of the other
      modes are given by the values they interpolate. */
  datatype Brief =
    | Plain(text: string)
    | ParallelPlan(task: string, names: seq<string>)
    | HierarchyPlan(task: string, names: seq<string>)
    | StepBrief(task: string, subtask: string, dependencyResults: string)
    | Synthesis(task: string, subtasks: seq<string>, results: seq<string>)
    | ConsensusBrief(task: string, responses: Dict<string>)

  type Crew = (nat, Agent, Brief) -> Reply

  /** A run's contribution to the results: its text, or `"Error: <message>"`. */
  function Shown(reply: Reply): string {
    match reply
    case Done(text, _) => text
    case Raised(e) => "Error: " + e
  }

  function AgentName(agent: Agent): string {
    agent.name
  }

  predicate UniqueNames(agents: seq<Agent>) {
    forall i, j :: 0 <= i < j < |agents| ==> agents[i].name != agents[j].name
  }

  /** The roster without the coordinator, in roster order. */
  function Others(agents: seq<Agent>, coordinator: Agent): (r: seq<Agent>)
    ensures |r| <= |agents|
    ensures forall a :: a in r <==> a in agents && a != coordinator
  {
    if agents == [] then []
    else
      var last := agents[|agents| - 1];
      assert forall a :: a in agents <==> a in agents[..|agents| - 1] || a == last;
      Others(agents[..|agents| - 1], coordinator) + (if last == coordinator then [] else [last])
  }

  lemma {:induction false} OthersWithout(agents: seq<Agent>, coordinator: Agent)
    requires coordinator !in agents
    ensures Others(agents, coordinator) == agents
  {
    if agents != [] {
      var n := |agents| - 1;
      var front, last := agents[..n], agents[n];
      assert agents == front + [last];
      assert coordinator !in front && last != coordinator;
      OthersWithout(front, coordinator);
    }
  }

  /** With distinct names, leaving out a coordinator from the roster
      leaves every other agent. */
  lemma {:induction false} OthersOfUnique(agents: seq<Agent>, coordinator: Agent)
    requires UniqueNames(agents) && coordinator in agents
    ensures |Others(agents, coordinator)| == |agents| - 1
  {
    var n := |agents| - 1;
    var front := agents[..n];
    assert UniqueNames(front);
    if agents[n] == coordinator {
      assert coordinator !in front by {
        forall k | 0 <= k < n ensures front[k] != coordinator {
          assert front[k].name == agents[k].name != agents[n].name;
        }
      }
      OthersWithout(front, coordinator);
    } else {
      assert agents == front + [agents[n]];
      assert coordinator in front;
      OthersOfUnique(front, coordinator);
    }
  }

  // ---------------------------------------------------------- performance

  /** `{"tasks_completed", "tasks_failed", "avg_time"}` of one agent. */
  datatype Perf = Perf(completed: nat, failed: nat, avgTime: real)

  /** The counters of a newly added agent. */
  const Fresh: Perf := Perf(0, 0, 0.0)

  /** One performance update: a successful run and its time, a failed run,
      or the coordinator's credit, which counts a task but no time. */
  datatype Event = Credit(name: string) | Success(name: string, time: real) | Failure(name: string)

  /** A success sets `avg_time := (avg_time * (n - 1) + t) / n` with `n` the new count. */
  function Record(p: Perf, e: Event): Perf {
    match e
    case Credit(_) => p.(completed := p.completed + 1)
    case Success(_, t) => Perf(p.completed + 1, p.failed, (p.avgTime * (p.completed as real) + t) / ((p.completed + 1) as real))
    case Failure(_) => p.(failed := p.failed + 1)
  }

  /** The update of the agent the event names. A run never applies an event
      whose name has no counters: its lookup raises first (see `Counted`
      and `PlayCounted`). */
  function Apply(perf: map<string, Perf>, e: Event): (r: map<string, Perf>)
    ensures r.Keys == perf.Keys
    ensures e.name in perf ==> r[e.name] == Record(perf[e.name], e)
    ensures forall n :: n in perf && n != e.name ==> r[n] == perf[n]
  {
    if e.name in perf then perf[e.name := Record(perf[e.name], e)] else perf
  }

  /** The names a run may look up: with tracking off nothing is looked up,
      with it on the keys of `agent_performance`. Looking up any other name
      raises `KeyError`. */
  datatype Counters = Untracked | Tracked(keys: set<string>)

  predicate Counted(counters: Counters, name: string) {
    counters.Untracked? || name in counters.keys
  }

  /** `str(KeyError(name))`: the name between single quotes. */
  function KeyMessage(name: string): string {
    "'" + name + "'"
  }

  /** Where a loop that looks up a name at each turn first raises: the
      position of the first `true`. */
  function FirstRaise(raises: seq<bool>): (r: Option<nat>)
    ensures r.None? <==> forall k :: 0 <= k < |raises| ==> !raises[k]
    ensures r.Some? ==> r.value < |raises| && raises[r.value] && forall k :: 0 <= k < r.value ==> !raises[k]
  {
    if raises == [] then None
    else match FirstRaise(raises[..|raises| - 1])
      case Some(k) => Some(k)
      case None => if raises[|raises| - 1] then Some(|raises| - 1) else None
  }

  /** A loop that got through turns `0 .. i-1` and raises at turn `i`
      raises at its first raising turn. */
  lemma FirstRaiseAt(raises: seq<bool>, i: nat)
    requires i < |raises| && raises[i] && forall k :: 0 <= k < i ==> !raises[k]
    ensures FirstRaise(raises) == Some(i)
  {
  }

  /** The updates of `events`, in order. */
  function Tally(perf: map<string, Perf>, events: seq<Event>): (r: map<string, Perf>)
    ensures r.Keys == perf.Keys
  {
    if events == [] then perf else Apply(Tally(perf, events[..|events| - 1]), events[|events| - 1])
  }

  lemma TallyAppend(perf: map<string, Perf>, events: seq<Event>, e: Event)
    ensures Tally(perf, events + [e]) == Apply(Tally(perf, events), e)
  {
    assert (events + [e])[..|events|] == events;
  }

  lemma TallyOne(perf: map<string, Perf>, e: Event)
    ensures Tally(perf, [e]) == Apply(perf, e)
  {
    assert [e][..0] == [];
  }

  lemma {:induction false} TallyConcat(perf: map<string, Perf>, first: seq<Event>, rest: seq<Event>)
    ensures Tally(perf, first + rest) == Tally(Tally(perf, first), rest)
    decreases |rest|
  {
    if rest != [] {
      var n := |rest| - 1;
      TallyConcat(perf, first, rest[..n]);
      assert (first + rest)[..|first| + n] == first + rest[..n];
    } else {
      assert first + rest == first;
    }
  }

  /** How many of `events` count a completed task, or a failed one, for `name`. */
  function Completions(events: seq<Event>, name: string): nat {
    if events == [] then 0
    else Completions(events[..|events| - 1], name) + (var e := events[|events| - 1]; if e.name == name && !e.Failure? then 1 else 0)
  }

  function Failures(events: seq<Event>, name: string): nat {
    if events == [] then 0
    else Failures(events[..|events| - 1], name) + (var e := events[|events| - 1]; if e.name == name && e.Failure? then 1 else 0)
  }

  /** Each tracked agent's counters grow by exactly its completions and failures. */
  lemma {:induction false} TallyCounts(perf: map<string, Perf>, events: seq<Event>, name: string)
    requires name in perf
    ensures Tally(perf, events)[name].completed == perf[name].completed + Completions(events, name)
    ensures Tally(perf, events)[name].failed == perf[name].failed + Failures(events, name)
  {
    if events != [] {
      TallyCounts(perf, events[..|events| - 1], name);
    }
  }

  /** Events that name no tracked agent change nothing. */
  lemma {:induction false} TallyOthers(perf: map<string, Perf>, events: seq<Event>, name: string)
    requires name in perf
    requires forall k :: 0 <= k < |events| ==> events[k].name != name
    ensures Tally(perf, events)[name] == perf[name]
  {
    if events != [] {
      TallyOthers(perf, events[..|events| - 1], name);
    }
  }

  function Sum(times: seq<real>): real {
    if times == [] then 0.0 else Sum(times[..|times| - 1]) + times[|times| - 1]
  }

  /** The counters after a run of successes only. */
  function Successes(p: Perf, name: string, times: seq<real>): Perf {
    if times == [] then p else Record(Successes(p, name, times[..|times| - 1]), Success(name, times[|times| - 1]))
  }

  /** One success keeps `avg_time * tasks_completed` equal to the total time. */
  lemma RunningMean(p: Perf, name: string, t: real)
    ensures Record(p, Success(name, t)).avgTime * ((p.completed + 1) as real) == p.avgTime * (p.completed as real) + t
  {
    var n := (p.completed + 1) as real;
    var total := p.avgTime * (p.completed as real) + t;
    assert (total / n) * n == total;
  }

  /** From fresh counters, `avg_time` is the mean time of the successes. */
  lemma {:induction false} MeanOfSuccesses(name: string, times: seq<real>)
    ensures Successes(Fresh, name, times).completed == |times|
    ensures Successes(Fresh, name, times).avgTime * (|times| as real) == Sum(times)
  {
    if times != [] {
      var before := times[..|times| - 1];
      MeanOfSuccesses(name, before);
      RunningMean(Successes(Fresh, name, before), name, times[|times| - 1]);
    }
  }

  /** A coordinator credit counts a task without time, so a later success
      is averaged over two tasks. */
  lemma CreditDilutesMean(name: string, t: real)
    ensures Record(Record(Fresh, Credit(name)), Success(name, t)).avgTime == t / 2.0
  {
  }

  // ----------------------------------------------------------- sequential

  /** The hand-off prompt of the sequential mode. */
  function Handoff(task: string, current: string): Brief {
    Plain("Task: " + task + "\n\nPrevious work: " + current + "\n\nContinue the work.")
  }

  /** The state of the sequential loop: the current result, the next run
      number, the performance events and each agent's output (`None` for a
      failed run). */
  datatype Relayed = Relayed(result: string, calls: nat, events: seq<Event>, outputs: seq<Option<string>>)

  /** The hand-offs of `_run_sequential` along `others`, starting from the
      coordinator's output `first` and run number `calls`. */
  function Relay(crew: Crew, calls: nat, others: seq<Agent>, task: string, first: string): (r: Relayed)
    ensures r.calls == calls + |others| && |r.events| == |others| && |r.outputs| == |others|
  {
    if others == [] then Relayed(first, calls, [], [])
    else
      var prev := Relay(crew, calls, others[..|others| - 1], task, first);
      var agent := others[|others| - 1];
      Passed(prev, agent, crew(calls + |others| - 1, agent, Handoff(task, prev.result)))
  }

  lemma RelayNext(crew: Crew, calls: nat, others: seq<Agent>, agent: Agent, task: string, first: string, prev: Relayed)
    requires prev == Relay(crew, calls, others, task, first)
    ensures Relay(crew, calls, others + [agent], task, first) == Passed(prev, agent, crew(prev.calls, agent, Handoff(task, prev.result)))
  {
    assert (others + [agent])[..|others|] == others;
  }

  /** One more roster member: the coordinator is skipped, anyone else
      is handed the current result. */
  lemma RelayTurn(crew: Crew, calls: nat, agents: seq<Agent>, coordinator: Agent, task: string, first: string, i: nat, prev: Relayed)
    requires i < |agents| && prev == Relay(crew, calls, Others(agents[..i], coordinator), task, first)
    ensures Relay(crew, calls, Others(agents[..i + 1], coordinator), task, first)
      == if agents[i] == coordinator then prev else Passed(prev, agents[i], crew(prev.calls, agents[i], Handoff(task, prev.result)))
  {
    assert agents[..i + 1][..i] == agents[..i];
    if agents[i] == coordinator {
      assert Others(agents[..i + 1], coordinator) == Others(agents[..i], coordinator);
    } else {
      assert Others(agents[..i + 1], coordinator) == Others(agents[..i], coordinator) + [agents[i]];
      RelayNext(crew, calls, Others(agents[..i], coordinator), agents[i], task, first, prev);
    }
  }

  /** The relay after `agent` answered `reply`: a text replaces the
      current result, a failure leaves it. */
  function Passed(prev: Relayed, agent: Agent, reply: Reply): Relayed {
    match reply
    case Done(text, _) => Relayed(text, prev.calls + 1, prev.events + [Outcome(agent.name, reply)], prev.outputs + [Some(text)])
    case Raised(_) => Relayed(prev.result, prev.calls + 1, prev.events + [Outcome(agent.name, reply)], prev.outputs + [None])
  }

  /** The last output, or `first` when every run failed. */
  function LastOutput(outputs: seq<Option<string>>, first: string): string {
    if outputs == [] then first
    else match outputs[|outputs| - 1]
      case Some(text) => text
      case None => LastOutput(outputs[..|outputs| - 1], first)
  }

  /** The sequential result is the last successful output, and the events
      name the agents in roster order, a success exactly where there is an output. */
  lemma {:induction false} RelayShape(crew: Crew, calls: nat, others: seq<Agent>, task: string, first: string)
    ensures var r := Relay(crew, calls, others, task, first);
      && r.result == LastOutput(r.outputs, first)
      && (forall k :: 0 <= k < |others| ==> r.events[k].name == others[k].name && !r.events[k].Credit?)
      && (forall k :: 0 <= k < |others| ==> (r.events[k].Success? <==> r.outputs[k].Some?))
  {
    if others != [] {
      RelayShape(crew, calls, others[..|others| - 1], task, first);
    }
  }

  /** When every run fails the coordinator's output stands. */
  lemma {:induction false} RelayAllFail(crew: Crew, calls: nat, others: seq<Agent>, task: string, first: string)
    requires forall n: nat, a, b :: a in others ==> crew(n, a, b).Raised?
    ensures Relay(crew, calls, others, task, first).result == first
  {
    if others != [] {
      RelayAllFail(crew, calls, others[..|others| - 1], task, first);
    }
  }

  /** When the last agent succeeds, its text is the team's result. */
  lemma RelayLastAnswers(crew: Crew, calls: nat, others: seq<Agent>, task: string, first: string, last: Agent, text: string)
    requires others != [] && others[|others| - 1] == last
    requires forall n: nat, b :: crew(n, last, b).Done? && crew(n, last, b).text == text
    ensures Relay(crew, calls, others, task, first).result == text
  {
  }

  // --------------------------------------------------------- plan parsing

  /** One entry of a plan: `{"subtask", "agent_name", "depends_on"}`. */
  datatype Step = Step(subtask: string, agentName: string, dependsOn: seq<int>)

  /** `json.loads` of a plan: the steps, or `None` when it raises. */
  type PlanParser = string -> Option<seq<Step>>

  datatype Planned = Plan(steps: seq<Step>) | NoPlan(message: string)

  /** The plan in a coordinator's response: the text from the first "[" to
      the last "]", parsed. */
  function ExtractPlan(response: string, parse: PlanParser): (r: Planned)
    ensures !Contains(response, "[") || !Contains(response, "]") ==>
              r == NoPlan("Error: Could not create a plan for the task. Coordinator's response: " + response)
    ensures r.NoPlan? && Contains(response, "[") && Contains(response, "]") ==>
              r.message == "Error: Could not parse the plan. Coordinator's response: " + response
  {
    var start := Find(response, "[");
    var end := RFind(response, "]") + 1;
    if start == -1 || end == 0 then NoPlan("Error: Could not create a plan for the task. Coordinator's response: " + response)
    else match parse(Slice(response, start, end))
      case None => NoPlan("Error: Could not parse the plan. Coordinator's response: " + response)
      case Some(steps) => Plan(steps)
  }

  /** Text around the bracketed plan is ignored: the parser sees exactly
      the bracketed part. */
  lemma PlanAmidText(before: string, body: string, after: string, parse: PlanParser)
    requires '[' !in before && ']' !in after
    ensures var text := "[" + body + "]";
            var response := before + text + after;
            ExtractPlan(response, parse) == match parse(text)
              case None => NoPlan("Error: Could not parse the plan. Coordinator's response: " + response)
              case Some(steps) => Plan(steps)
  {
    var text := "[" + body + "]";
    var response := before + text + after;
    FindAfter(before, "[", body + "]" + after);
    assert before + "[" + (body + "]" + after) == response;
    var last := |before| + |text| - 1;
    assert OccursAt(response, "]", last);
    forall j | last < j ensures !OccursAt(response, "]", j) {
      if j + 1 <= |response| {
        assert response[j] == after[j - |before| - |text|];
      }
    }
    assert RFind(response, "]") == last;
    assert Slice(response, |before|, last + 1) == text;
  }

  function Subtasks(steps: seq<Step>): (r: seq<string>)
    ensures |r| == |steps| && forall k :: 0 <= k < |r| ==> r[k] == steps[k].subtask
  {
    seq(|steps|, k requires 0 <= k < |steps| => steps[k].subtask)
  }

  // --------------------------------------------------------- hierarchical

  function NotFound(name: string): string {
    "Error: Virtual co-worker " + name + " not found"
  }

  datatype Delegated = Delegated(results: seq<string>, calls: nat, events: seq<Event>)

  /** The step loop of `_run_hierarchical`: each step's agent runs on the
      bare subtask; an unknown agent gives an error result and no run. */
  function Delegate(crew: Crew, calls: nat, index: map<string, Agent>, steps: seq<Step>): (r: Delegated)
    ensures |r.results| == |steps| && r.calls == calls + |r.events|
  {
    if steps == [] then Delegated([], calls, [])
    else
      var prev := Delegate(crew, calls, index, steps[..|steps| - 1]);
      var step := steps[|steps| - 1];
      if step.agentName !in index then Delegated(prev.results + [NotFound(step.agentName)], prev.calls, prev.events)
      else Assigned(prev, step.agentName, crew(prev.calls, index[step.agentName], Plain(step.subtask)))
  }

  /** The step results after the agent `name` answered `reply`. */
  function Assigned(prev: Delegated, name: string, reply: Reply): Delegated {
    Delegated(prev.results + [Shown(reply)], prev.calls + 1, prev.events + [Outcome(name, reply)])
  }

  lemma DelegateNext(crew: Crew, calls: nat, index: map<string, Agent>, steps: seq<Step>, i: nat, prev: Delegated)
    requires i < |steps| && prev == Delegate(crew, calls, index, steps[..i])
    ensures var step := steps[i];
            Delegate(crew, calls, index, steps[..i + 1]) ==
              if step.agentName !in index then Delegated(prev.results + [NotFound(step.agentName)], prev.calls, prev.events)
              else Assigned(prev, step.agentName, crew(prev.calls, index[step.agentName], Plain(step.subtask)))
  {
    assert steps[..i + 1][..i] == steps[..i];
  }

  /** One result per step, in plan order: a step naming no agent of the
      team yields the not-found error, and only known agents are credited. */
  lemma {:induction false} DelegateShape(crew: Crew, calls: nat, index: map<string, Agent>, steps: seq<Step>)
    ensures var r := Delegate(crew, calls, index, steps);
      && (forall k :: 0 <= k < |steps| && steps[k].agentName !in index ==> r.results[k] == NotFound(steps[k].agentName))
      && (forall k :: 0 <= k < |r.events| ==> r.events[k].name in index && !r.events[k].Credit?)
      && |r.events| <= |steps|
  {
    if steps != [] {
      DelegateShape(crew, calls, index, steps[..|steps| - 1]);
    }
  }

  // ------------------------------------------------------------ consensus

  datatype Polled = Polled(responses: Dict<string>, calls: nat, events: seq<Event>)

  /** The loop of `_run_consensus`: every roster agent once on the task,
      its text or its error stored under its name. */
  function Consult(crew: Crew, calls: nat, agents: seq<Agent>, task: string): (r: Polled)
    ensures r.calls == calls + |agents| && |r.events| == |agents|
  {
    if agents == [] then Polled([], calls, [])
    else
      var prev := Consult(crew, calls, agents[..|agents| - 1], task);
      var agent := agents[|agents| - 1];
      Heard(prev, agent, crew(calls + |agents| - 1, agent, Plain(task)))
  }

  lemma ConsultNext(crew: Crew, calls: nat, agents: seq<Agent>, task: string, i: nat, prev: Polled)
    requires i < |agents| && prev == Consult(crew, calls, agents[..i], task)
    ensures Consult(crew, calls, agents[..i + 1], task) == Heard(prev, agents[i], crew(prev.calls, agents[i], Plain(task)))
  {
    assert agents[..i + 1][..i] == agents[..i];
  }

  /** The poll after `agent` answered with `reply`. */
  function Heard(prev: Polled, agent: Agent, reply: Reply): Polled {
    Polled(Set(prev.responses, agent.name, Shown(reply)), prev.calls + 1, prev.events + [Outcome(agent.name, reply)])
  }

  lemma HeardNew(prev: Polled, agent: Agent, reply: Reply)
    requires !HasKey(prev.responses, agent.name)
    ensures Heard(prev, agent, reply).responses == prev.responses + [(agent.name, Shown(reply))]
    ensures Heard(prev, agent, reply).events == prev.events + [Outcome(agent.name, reply)]
  {
  }

  /** The performance event of one run. */
  function Outcome(name: string, reply: Reply): Event {
    if reply.Done? then Success(name, reply.elapsed) else Failure(name)
  }

  /** The poll lists each agent in roster order with what its run
      returned or `"Error: <message>"`. */
  predicate Listed(crew: Crew, calls: nat, agents: seq<Agent>, task: string, r: Polled) {
    && |r.responses| == |agents| && |r.events| == |agents|
    && forall k :: 0 <= k < |agents| ==>
         && r.responses[k] == (agents[k].name, Shown(crew(calls + k, agents[k], Plain(task))))
         && r.events[k].name == agents[k].name
  }

  /** With distinct names, the responses list every agent in roster order
      with what its run returned or `"Error: <message>"`. */
  lemma {:induction false} ConsultShape(crew: Crew, calls: nat, agents: seq<Agent>, task: string)
    requires UniqueNames(agents)
    ensures Listed(crew, calls, agents, task, Consult(crew, calls, agents, task))
  {
    if agents != [] {
      var n := |agents| - 1;
      var front := agents[..n];
      var last := agents[n];
      assert UniqueNames(front);
      ConsultShape(crew, calls, front, task);
      var prev := Consult(crew, calls, front, task);
      assert forall i :: 0 <= i < |prev.responses| ==> prev.responses[i].0 == front[i].name != last.name;
      var reply := crew(calls + n, last, Plain(task));
      ConsultAppends(crew, calls, agents, task, prev);
      ListedStep(crew, calls, agents, task, prev, Consult(crew, calls, agents, task));
    }
  }

  /** A name not heard before is appended to the responses. */
  lemma ConsultAppends(crew: Crew, calls: nat, agents: seq<Agent>, task: string, prev: Polled)
    requires agents != [] && prev == Consult(crew, calls, agents[..|agents| - 1], task)
    requires !HasKey(prev.responses, agents[|agents| - 1].name)
    ensures var last := agents[|agents| - 1];
            var reply := crew(calls + |agents| - 1, last, Plain(task));
            && Consult(crew, calls, agents, task).responses == prev.responses + [(last.name, Shown(reply))]
            && Consult(crew, calls, agents, task).events == prev.events + [Outcome(last.name, reply)]
  {
    var last := agents[|agents| - 1];
    assert prev.calls == calls + |agents| - 1;
    var reply := crew(calls + |agents| - 1, last, Plain(task));
    assert Consult(crew, calls, agents, task) == Heard(prev, last, reply);
    HeardNew(prev, last, reply);
  }

  lemma ListedStep(crew: Crew, calls: nat, agents: seq<Agent>, task: string, prev: Polled, r: Polled)
    requires agents != [] && Listed(crew, calls, agents[..|agents| - 1], task, prev)
    requires var last := agents[|agents| - 1];
             var reply := crew(calls + |agents| - 1, last, Plain(task));
             && r.responses == prev.responses + [(last.name, Shown(reply))]
             && r.events == prev.events + [Outcome(last.name, reply)]
    ensures Listed(crew, calls, agents, task, r)
  {
    var n := |agents| - 1;
    forall k | 0 <= k < |agents|
      ensures r.responses[k] == (agents[k].name, Shown(crew(calls + k, agents[k], Plain(task))))
      ensures r.events[k].name == agents[k].name
    {
      if k < n {
        var front := agents[..n];
        assert front[k] == agents[k];
        assert prev.responses[k] == (front[k].name, Shown(crew(calls + k, front[k], Plain(task))));
        assert r.responses[k] == prev.responses[k] && r.events[k] == prev.events[k];
      }
    }
  }

  // ------------------------------------------------------------- parallel

  /** The parallel board: each step's result so far, the next run number
      and the performance events. */
  datatype Board = Board(results: seq<Option<string>>, calls: nat, events: seq<Event>)

  function Blank(n: nat): (r: seq<Option<string>>)
    ensures |r| == n && forall k :: 0 <= k < n ==> r[k].None?
  {
    seq(n, k => None)
  }

  /** Steps still without a result. */
  function Unfinished(results: seq<Option<string>>): nat {
    if results == [] then 0
    else Unfinished(results[..|results| - 1]) + (if results[|results| - 1].None? then 1 else 0)
  }

  /** Step `i` may start: it has no result yet and every step it depends on has one. */
  predicate Ready(plan: seq<Step>, results: seq<Option<string>>, i: nat)
    requires |results| == |plan| && i < |plan|
  {
    results[i].None? && forall d :: d in plan[i].dependsOn ==> 0 <= d < |results| && results[d].Some?
  }

  /** "Result from step <d>: <result>\n\n" for each dependency with a result. */
  function DependencyText(deps: seq<int>, results: seq<Option<string>>): string {
    if deps == [] then ""
    else DependencyText(deps[..|deps| - 1], results) + DependencyLine(deps[|deps| - 1], results)
  }

  /** The line for dependency `d`, empty when step `d` has no result. */
  function DependencyLine(d: int, results: seq<Option<string>>): string {
    if 0 <= d < |results| && results[d].Some? then "Result from step " + NatToString(d) + ": " + results[d].value + "\n\n" else ""
  }

  /** One more dependency adds its line at the end. */
  lemma DependencyNext(deps: seq<int>, results: seq<Option<string>>, i: nat)
    requires i < |deps|
    ensures DependencyText(deps[..i + 1], results) == DependencyText(deps[..i], results) + DependencyLine(deps[i], results)
  {
    assert deps[..i + 1][..i] == deps[..i];
  }

  /** `execute_step(i, plan[i])` when step `i` is ready, run to completion. */
  function Attempt(crew: Crew, counters: Counters, index: map<string, Agent>, task: string, plan: seq<Step>, b: Board, i: nat): (r: Board)
    requires |b.results| == |plan| && i < |plan|
    ensures |r.results| == |plan|
  {
    if !Ready(plan, b.results, i) then b
    else
      var step := plan[i];
      if step.agentName !in index then b.(results := b.results[i := Some(NotFound(step.agentName))])
      else
        var reply := crew(b.calls, index[step.agentName], StepBrief(task, step.subtask, DependencyText(step.dependsOn, b.results)));
        if Counted(counters, step.agentName) then
          Board(b.results[i := Some(Shown(reply))], b.calls + 1, b.events + [Outcome(step.agentName, reply)])
        else
          Board(b.results[i := Some(KeyErrorShown(step.agentName, reply))], b.calls + 1, b.events)
  }

  /** What a step whose agent has no counters leaves in its slot before its
      thread dies of the `KeyError`: the error of the failed lookup after a
      success, the run's own error after a failure. */
  function KeyErrorShown(name: string, reply: Reply): (r: string)
    ensures r == Shown(Raised(if reply.Done? then KeyMessage(name) else reply.message))
  {
    if reply.Done? then "Error: " + KeyMessage(name) else Shown(reply)
  }

  /** One pass of the poll loop over steps `0 .. n-1`, each started step
      finishing before the next is examined. */
  function Sweep(crew: Crew, counters: Counters, index: map<string, Agent>, task: string, plan: seq<Step>, b: Board, n: nat): (r: Board)
    requires |b.results| == |plan| && n <= |plan|
    ensures |r.results| == |plan|
  {
    if n == 0 then b else Attempt(crew, counters, index, task, plan, Sweep(crew, counters, index, task, plan, b, n - 1), n - 1)
  }

  /** The first loop of `_run_parallel`: every step without dependencies
      starts, in plan order. */
  function Launch(crew: Crew, counters: Counters, index: map<string, Agent>, task: string, plan: seq<Step>, b: Board, n: nat): (r: Board)
    requires |b.results| == |plan| && n <= |plan|
    ensures |r.results| == |plan|
  {
    if n == 0 then b
    else
      var prev := Launch(crew, counters, index, task, plan, b, n - 1);
      if plan[n - 1].dependsOn == [] then Attempt(crew, counters, index, task, plan, prev, n - 1) else prev
  }

  /** One more step of the launch: a step without dependencies is attempted. */
  lemma LaunchNext(crew: Crew, counters: Counters, index: map<string, Agent>, task: string, plan: seq<Step>, b: Board, i: nat)
    requires |b.results| == |plan| && i < |plan|
    ensures Launch(crew, counters, index, task, plan, b, i + 1) ==
              if plan[i].dependsOn == [] then Attempt(crew, counters, index, task, plan, Launch(crew, counters, index, task, plan, b, i), i)
              else Launch(crew, counters, index, task, plan, b, i)
  {
  }

  /** `b` has at least the results of `a`. */
  predicate Extends(a: seq<Option<string>>, b: seq<Option<string>>) {
    |a| == |b| && forall k :: 0 <= k < |a| && a[k].Some? ==> b[k] == a[k]
  }

  lemma {:induction false} ExtendsUnfinished(a: seq<Option<string>>, b: seq<Option<string>>)
    requires Extends(a, b)
    ensures Unfinished(b) <= Unfinished(a)
    ensures a != b ==> Unfinished(b) < Unfinished(a)
  {
    if a != [] {
      var n := |a| - 1;
      ExtendsUnfinished(a[..n], b[..n]);
      if a[..n] == b[..n] && a != b {
        assert a[n] != b[n];
      }
    }
  }

  /** A pass only adds results; if it adds none, no step was ready. */
  lemma {:induction false} SweepExtends(crew: Crew, counters: Counters, index: map<string, Agent>, task: string, plan: seq<Step>, b: Board, n: nat)
    requires |b.results| == |plan| && n <= |plan|
    ensures Extends(b.results, Sweep(crew, counters, index, task, plan, b, n).results)
    ensures Sweep(crew, counters, index, task, plan, b, n).results == b.results ==> forall i :: 0 <= i < n ==> !Ready(plan, b.results, i)
  {
    if n > 0 {
      SweepExtends(crew, counters, index, task, plan, b, n - 1);
      var mid := Sweep(crew, counters, index, task, plan, b, n - 1);
      var r := Sweep(crew, counters, index, task, plan, b, n);
      assert Extends(mid.results, r.results);
      if r.results == b.results {
        assert forall k :: 0 <= k < |plan| ==> mid.results[k] == b.results[k];
        assert mid.results == b.results;
      }
    }
  }

  /** A pass over a board where no step is ready changes nothing. */
  lemma {:induction false} SweepIdle(crew: Crew, counters: Counters, index: map<string, Agent>, task: string, plan: seq<Step>, b: Board, n: nat)
    requires |b.results| == |plan| && n <= |plan|
    requires forall i :: 0 <= i < |plan| ==> !Ready(plan, b.results, i)
    ensures Sweep(crew, counters, index, task, plan, b, n) == b
  {
    if n > 0 {
      SweepIdle(crew, counters, index, task, plan, b, n - 1);
    }
  }

  datatype Scheduled = Finished(board: Board) | Stuck(board: Board)

  /** The poll loop of `_run_parallel`, until every step has a result. A
      pass that starts nothing leaves it `Stuck`: there the source polls
      forever. */
  function Schedule(crew: Crew, counters: Counters, index: map<string, Agent>, task: string, plan: seq<Step>, b: Board): (r: Scheduled)
    requires |b.results| == |plan|
    ensures |r.board.results| == |plan|
    decreases Unfinished(b.results)
  {
    if Unfinished(b.results) == 0 then Finished(b)
    else
      var next := Sweep(crew, counters, index, task, plan, b, |plan|);
      SweepExtends(crew, counters, index, task, plan, b, |plan|);
      ExtendsUnfinished(b.results, next.results);
      if next.results == b.results then Stuck(b)
      else Schedule(crew, counters, index, task, plan, next)
  }

  lemma {:induction false} NoneUnfinished(results: seq<Option<string>>)
    ensures Unfinished(results) == 0 <==> forall k :: 0 <= k < |results| ==> results[k].Some?
  {
    if results != [] {
      NoneUnfinished(results[..|results| - 1]);
    }
  }

  /** A finished schedule has a result for every step; a stuck one has a
      step without a result, and no step is ready. */
  lemma {:induction false} ScheduleEnds(crew: Crew, counters: Counters, index: map<string, Agent>, task: string, plan: seq<Step>, b: Board)
    requires |b.results| == |plan|
    ensures var s := Schedule(crew, counters, index, task, plan, b);
      && |s.board.results| == |plan|
      && (s.Finished? ==> forall k :: 0 <= k < |plan| ==> s.board.results[k].Some?)
      && (s.Stuck? ==> Unfinished(s.board.results) > 0 && forall i :: 0 <= i < |plan| ==> !Ready(plan, s.board.results, i))
    decreases Unfinished(b.results)
  {
    NoneUnfinished(b.results);
    if Unfinished(b.results) != 0 {
      var next := Sweep(crew, counters, index, task, plan, b, |plan|);
      SweepExtends(crew, counters, index, task, plan, b, |plan|);
      ExtendsUnfinished(b.results, next.results);
      if next.results != b.results {
        ScheduleEnds(crew, counters, index, task, plan, next);
      }
    }
  }

  /** Every dependency names an earlier step. */
  predicate Backward(plan: seq<Step>) {
    forall i, d :: 0 <= i < |plan| && d in plan[i].dependsOn ==> 0 <= d < i
  }

  /** The first step without a result is ready when dependencies only point back. */
  lemma FirstUnfinishedReady(plan: seq<Step>, results: seq<Option<string>>)
    requires |results| == |plan| && Backward(plan) && Unfinished(results) > 0
    ensures exists i :: 0 <= i < |plan| && Ready(plan, results, i)
  {
    NoneUnfinished(results);
    var i :| 0 <= i < |results| && results[i].None?;
    var j := 0;
    while results[j].Some?
      invariant 0 <= j <= i
      invariant forall k :: 0 <= k < j ==> results[k].Some?
      decreases i - j
    {
      j := j + 1;
    }
    i := j;
    assert Ready(plan, results, i);
  }

  /** With every dependency pointing to an earlier step, the parallel mode
      always finishes. */
  lemma {:induction false} BackwardPlansFinish(crew: Crew, counters: Counters, index: map<string, Agent>, task: string, plan: seq<Step>, b: Board)
    requires |b.results| == |plan| && Backward(plan)
    ensures Schedule(crew, counters, index, task, plan, b).Finished?
    decreases Unfinished(b.results)
  {
    if Unfinished(b.results) != 0 {
      var next := Sweep(crew, counters, index, task, plan, b, |plan|);
      SweepExtends(crew, counters, index, task, plan, b, |plan|);
      ExtendsUnfinished(b.results, next.results);
      FirstUnfinishedReady(plan, b.results);
      if next.results != b.results {
        BackwardPlansFinish(crew, counters, index, task, plan, next);
      }
    }
  }

  /** "Step <i> (<agent> - <subtask>):\n<result>\n\n" for every step. */
  function StepReport(plan: seq<Step>, results: seq<Option<string>>): string
    requires |results| == |plan|
  {
    if plan == [] then ""
    else
      var n := |plan| - 1;
      StepReport(plan[..n], results[..n]) + StepLine(n, plan[n], results[n])
  }

  function StepLine(i: nat, step: Step, result: Option<string>): string {
    "Step " + NatToString(i) + " (" + step.agentName + " - " + step.subtask + "):\n" + result.GetOr("") + "\n\n"
  }

  lemma StepReportNext(plan: seq<Step>, results: seq<Option<string>>, i: nat)
    requires |results| == |plan| && i < |plan|
    ensures StepReport(plan[..i + 1], results[..i + 1]) == StepReport(plan[..i], results[..i]) + StepLine(i, plan[i], results[i])
  {
    assert plan[..i + 1][..i] == plan[..i] && results[..i + 1][..i] == results[..i];
  }

  function Report(plan: seq<Step>, results: seq<Option<string>>): string
    requires |results| == |plan|
  {
    "Task Execution Results:\n\n" + StepReport(plan, results)
  }

  // ---------------------------------------------------------------- modes

  /** The collaboration mode; a mode the team does not know runs sequentially. */
  datatype Mode = Sequential | Parallel | Hierarchical | Consensus | Unrecognised

  /** What `run` does: return a text, let an exception of a coordinator
      run escape, or poll forever. */
  datatype RunResult = Answer(text: string) | Propagated(message: string) | Hangs

  /** A run's result, the next run number and the performance events. */
  datatype Played = Played(result: RunResult, calls: nat, events: seq<Event>)

  /** The turns of `_run_sequential`'s loop that look up counters and find
      none: every roster agent but the coordinator is looked up. */
  function RelayMisses(counters: Counters, agents: seq<Agent>, coordinator: Agent): (r: seq<bool>)
    ensures |r| == |agents|
    ensures forall k {:trigger r[k]} :: 0 <= k < |agents| ==> (r[k] <==> agents[k] != coordinator && !Counted(counters, agents[k].name))
  {
    seq(|agents|, k requires 0 <= k < |agents| => agents[k] != coordinator && !Counted(counters, agents[k].name))
  }

  /** `_run_sequential`: the coordinator's output, handed on along the
      others until one of them has no counters. */
  function SequentialRun(crew: Crew, counters: Counters, calls: nat, agents: seq<Agent>, coordinator: Agent, task: string): Played {
    match crew(calls, coordinator, Plain(task))
    case Raised(e) => Played(Propagated(e), calls + 1, [])
    case Done(text, _) =>
      if !Counted(counters, coordinator.name) then Played(Propagated(KeyMessage(coordinator.name)), calls + 1, [])
      else match FirstRaise(RelayMisses(counters, agents, coordinator))
        case None =>
          var r := Relay(crew, calls + 1, Others(agents, coordinator), task, text);
          Played(Answer(r.result), r.calls, [Credit(coordinator.name)] + r.events)
        case Some(i) =>
          var r := Relay(crew, calls + 1, Others(agents[..i], coordinator), task, text);
          Played(Propagated(KeyMessage(agents[i].name)), r.calls + 1, [Credit(coordinator.name)] + r.events)
  }

  /** `_run_parallel`: a plan from the coordinator, its steps run as they
      become ready, and the step report. */
  function ParallelRun(crew: Crew, counters: Counters, calls: nat, agents: seq<Agent>, index: map<string, Agent>, coordinator: Agent,
                       task: string, parse: PlanParser): Played
  {
    match crew(calls, coordinator, ParallelPlan(task, Names(agents, AgentName)))
    case Raised(e) => Played(Propagated(e), calls + 1, [])
    case Done(response, _) =>
      match ExtractPlan(response, parse)
      case NoPlan(message) => Played(Answer(message), calls + 1, [])
      case Plan(steps) => Orchestrated(crew, counters, index, task, steps, calls + 1)
  }

  /** A parsed parallel plan: every step started once, then swept until all
      have results (the step report) or a sweep changes nothing (`Hangs`). */
  function Orchestrated(crew: Crew, counters: Counters, index: map<string, Agent>, task: string, steps: seq<Step>, calls: nat): Played {
    var launched := Launch(crew, counters, index, task, steps, Board(Blank(|steps|), calls, []), |steps|);
    match Schedule(crew, counters, index, task, steps, launched)
    case Finished(b) => Played(Answer(Report(steps, b.results)), b.calls, b.events)
    case Stuck(b) => Played(Hangs, b.calls, b.events)
  }

  /** The turns of `_run_hierarchical`'s step loop that look up counters and
      find none: a step whose agent is known is looked up. */
  function DelegateMisses(counters: Counters, index: map<string, Agent>, steps: seq<Step>): (r: seq<bool>)
    ensures |r| == |steps|
    ensures forall k {:trigger r[k]} :: 0 <= k < |steps| ==> (r[k] <==> steps[k].agentName in index && !Counted(counters, steps[k].agentName))
  {
    seq(|steps|, k requires 0 <= k < |steps| => steps[k].agentName in index && !Counted(counters, steps[k].agentName))
  }

  /** `_run_hierarchical`: a plan over the other agents, one run per step
      until a known agent has no counters, and the coordinator's synthesis. */
  function HierarchicalRun(crew: Crew, counters: Counters, calls: nat, agents: seq<Agent>, index: map<string, Agent>, coordinator: Agent,
                           task: string, parse: PlanParser): Played
  {
    match crew(calls, coordinator, HierarchyPlan(task, Names(Others(agents, coordinator), AgentName)))
    case Raised(e) => Played(Propagated(e), calls + 1, [])
    case Done(response, _) =>
      match ExtractPlan(response, parse)
      case NoPlan(message) => Played(Answer(message), calls + 1, [])
      case Plan(steps) => Directed(crew, counters, calls + 1, index, coordinator, task, steps)
  }

  /** `_run_hierarchical` once the plan `steps` is parsed, from call
      number `calls`: the steps in order until a known agent has no
      counters, then the coordinator's synthesis. */
  function Directed(crew: Crew, counters: Counters, calls: nat, index: map<string, Agent>, coordinator: Agent,
                    task: string, steps: seq<Step>): Played
  {
    match FirstRaise(DelegateMisses(counters, index, steps))
    case Some(i) =>
      var d := Delegate(crew, calls, index, steps[..i]);
      Played(Propagated(KeyMessage(steps[i].agentName)), d.calls + 1, d.events)
    case None => Concluded(crew, counters, coordinator, task, steps, Delegate(crew, calls, index, steps))
  }

  /** The end of `_run_hierarchical` after the step results `d`: the
      coordinator's synthesis, then its credit. */
  function Concluded(crew: Crew, counters: Counters, coordinator: Agent, task: string, steps: seq<Step>, d: Delegated): Played {
    match crew(d.calls, coordinator, Synthesis(task, Subtasks(steps), d.results))
    case Raised(e) => Played(Propagated(e), d.calls + 1, d.events)
    case Done(text, _) =>
      if Counted(counters, coordinator.name) then Played(Answer(text), d.calls + 1, d.events + [Credit(coordinator.name)])
      else Played(Propagated(KeyMessage(coordinator.name)), d.calls + 1, d.events)
  }

  /** The turns of `_run_consensus`'s loop that look up counters and find
      none: every roster agent is looked up. */
  function PollMisses(counters: Counters, agents: seq<Agent>): (r: seq<bool>)
    ensures |r| == |agents|
    ensures forall k {:trigger r[k]} :: 0 <= k < |agents| ==> (r[k] <==> !Counted(counters, agents[k].name))
  {
    seq(|agents|, k requires 0 <= k < |agents| => !Counted(counters, agents[k].name))
  }

  /** `_run_consensus`: every agent on the task until one has no counters,
      then the coordinator on their responses, without a credit for the
      coordinator. */
  function ConsensusRun(crew: Crew, counters: Counters, calls: nat, agents: seq<Agent>, coordinator: Agent, task: string): Played {
    match FirstRaise(PollMisses(counters, agents))
    case Some(i) =>
      var poll := Consult(crew, calls, agents[..i], task);
      Played(Propagated(KeyMessage(agents[i].name)), poll.calls + 1, poll.events)
    case None =>
      var poll := Consult(crew, calls, agents, task);
      match crew(poll.calls, coordinator, ConsensusBrief(task, poll.responses))
      case Raised(e) => Played(Propagated(e), poll.calls + 1, poll.events)
      case Done(text, _) => Played(Answer(text), poll.calls + 1, poll.events)
  }

  function Play(mode: Mode, crew: Crew, counters: Counters, calls: nat, agents: seq<Agent>, index: map<string, Agent>, coordinator: Agent,
                task: string, parse: PlanParser): Played
  {
    match mode
    case Parallel => ParallelRun(crew, counters, calls, agents, index, coordinator, task, parse)
    case Hierarchical => HierarchicalRun(crew, counters, calls, agents, index, coordinator, task, parse)
    case Consensus => ConsensusRun(crew, counters, calls, agents, coordinator, task)
    case _ => SequentialRun(crew, counters, calls, agents, coordinator, task)
  }

  /** With every roster name counted, a sequential run whose coordinator
      answers is the whole relay along the others, the coordinator credited
      first. */
  lemma SequentialCounted(crew: Crew, counters: Counters, calls: nat, agents: seq<Agent>, coordinator: Agent, task: string)
    requires forall a :: a in agents ==> Counted(counters, a.name)
    requires Counted(counters, coordinator.name) && crew(calls, coordinator, Plain(task)).Done?
    ensures var r := Relay(crew, calls + 1, Others(agents, coordinator), task, crew(calls, coordinator, Plain(task)).text);
            SequentialRun(crew, counters, calls, agents, coordinator, task) == Played(Answer(r.result), r.calls, [Credit(coordinator.name)] + r.events)
  {
    assert FirstRaise(RelayMisses(counters, agents, coordinator)).None? by {
      forall k | 0 <= k < |agents| ensures !RelayMisses(counters, agents, coordinator)[k] {
        assert agents[k] in agents;
      }
    }
  }

  /** With every roster name counted, sequential mode runs every agent once
      when the coordinator's run succeeds, and every agent gets one
      performance event. */
  lemma SequentialRunsEveryone(crew: Crew, counters: Counters, calls: nat, agents: seq<Agent>, coordinator: Agent, task: string)
    requires UniqueNames(agents) && coordinator in agents
    requires forall a :: a in agents ==> Counted(counters, a.name)
    requires crew(calls, coordinator, Plain(task)).Done?
    ensures var p := SequentialRun(crew, counters, calls, agents, coordinator, task);
            p.result.Answer? && p.calls == calls + |agents| && |p.events| == |agents|
  {
    OthersOfUnique(agents, coordinator);
    SequentialCounted(crew, counters, calls, agents, coordinator, task);
  }

  /** Once the coordinator has answered and been credited, an agent after it
      without counters makes sequential mode raise the `KeyError` of the
      first such agent in roster order, after that agent's own run. */
  lemma SequentialMissRaises(crew: Crew, counters: Counters, calls: nat, agents: seq<Agent>, coordinator: Agent, task: string, j: nat)
    requires j < |agents| && agents[j] != coordinator && !Counted(counters, agents[j].name)
    requires crew(calls, coordinator, Plain(task)).Done? && Counted(counters, coordinator.name)
    ensures var p := SequentialRun(crew, counters, calls, agents, coordinator, task);
            exists i :: 0 <= i <= j && !Counted(counters, agents[i].name)
                     && p.result == Propagated(KeyMessage(agents[i].name))
                     && p.calls == calls + |Others(agents[..i], coordinator)| + 2
  {
    var misses := RelayMisses(counters, agents, coordinator);
    assert misses[j];
    var i := FirstRaise(misses).value;
    assert i <= j;
  }

  /** Two agents answering "<name> response" after the coordinator: the
      second's answer ends the relay, after two calls. */
  lemma RelayOfTwo(crew: Crew, calls: nat, b: Agent, c: Agent, task: string, first: string)
    requires forall n: nat, agent, brief :: crew(n, agent, brief) == Done(agent.name + " response", 1.0)
    ensures var r := Relay(crew, calls, [b, c], task, first);
            r.result == c.name + " response" && r.calls == calls + 2 && r.events == [Success(b.name, 1.0), Success(c.name, 1.0)]
  {
    assert Relay(crew, calls, [], task, first) == Relayed(first, calls, [], []);
    RelayNext(crew, calls, [], b, task, first, Relayed(first, calls, [], []));
    assert [] + [b] == [b];
    assert crew(calls, b, Handoff(task, first)) == Done(b.name + " response", 1.0);
    var second := Relay(crew, calls, [b], task, first);
    assert second == Relayed(b.name + " response", calls + 1, [Success(b.name, 1.0)], [Some(b.name + " response")]);
    RelayNext(crew, calls, [b], c, task, first, second);
    assert [b] + [c] == [b, c];
    assert crew(calls + 1, c, Handoff(task, b.name + " response")) == Done(c.name + " response", 1.0);
  }

  /** Three agents answering "<name> response": the team's answer is the
      last agent's. */
  lemma SequentialOfThree(crew: Crew, counters: Counters, calls: nat, a: Agent, b: Agent, c: Agent, task: string)
    requires a.name != b.name && a.name != c.name && b.name != c.name
    requires Counted(counters, a.name) && Counted(counters, b.name) && Counted(counters, c.name)
    requires forall n: nat, agent, brief :: crew(n, agent, brief) == Done(agent.name + " response", 1.0)
    ensures SequentialRun(crew, counters, calls, [a, b, c], a, task) == Played(
              Answer(c.name + " response"), calls + 3,
              [Credit(a.name), Success(b.name, 1.0), Success(c.name, 1.0)])
  {
    var agents := [a, b, c];
    assert agents[..2] == [a, b] && [a, b][..1] == [a] && [a][..0] == [];
    assert Others([a], a) == [];
    assert Others([a, b], a) == [b];
    assert Others(agents, a) == [b, c];
    assert crew(calls, a, Plain(task)) == Done(a.name + " response", 1.0);
    SequentialCounted(crew, counters, calls, agents, a, task);
    RelayOfTwo(crew, calls + 1, b, c, task, a.name + " response");
  }

  /** In hierarchical mode a step whose known agent has no counters makes the
      run raise the `KeyError` of the first such step, after that step's
      run and before the synthesis. */
  lemma HierarchicalMissRaises(crew: Crew, counters: Counters, calls: nat, agents: seq<Agent>, index: map<string, Agent>,
                               coordinator: Agent, task: string, parse: PlanParser, j: nat)
    requires crew(calls, coordinator, HierarchyPlan(task, Names(Others(agents, coordinator), AgentName))).Done?
    requires var plan := ExtractPlan(crew(calls, coordinator, HierarchyPlan(task, Names(Others(agents, coordinator), AgentName))).text, parse);
             && plan.Plan? && j < |plan.steps|
             && plan.steps[j].agentName in index && !Counted(counters, plan.steps[j].agentName)
    ensures var steps := ExtractPlan(crew(calls, coordinator, HierarchyPlan(task, Names(Others(agents, coordinator), AgentName))).text, parse).steps;
            var p := HierarchicalRun(crew, counters, calls, agents, index, coordinator, task, parse);
            exists i :: 0 <= i <= j && p.result == Propagated(KeyMessage(steps[i].agentName))
  {
    var steps := ExtractPlan(crew(calls, coordinator, HierarchyPlan(task, Names(Others(agents, coordinator), AgentName))).text, parse).steps;
    var misses := DelegateMisses(counters, index, steps);
    assert misses[j];
    var i := FirstRaise(misses).value;
    assert i <= j;
  }

  /** In hierarchical mode a coordinator without counters raises its
      `KeyError` after a successful synthesis, instead of answering. */
  lemma HierarchicalCreditRaises(crew: Crew, counters: Counters, calls: nat, agents: seq<Agent>, index: map<string, Agent>,
                                 coordinator: Agent, task: string, parse: PlanParser)
    requires forall n: nat, brief :: crew(n, coordinator, brief).Done?
    requires var plan := ExtractPlan(crew(calls, coordinator, HierarchyPlan(task, Names(Others(agents, coordinator), AgentName))).text, parse);
             plan.Plan? && forall k :: 0 <= k < |plan.steps| && plan.steps[k].agentName in index ==> Counted(counters, plan.steps[k].agentName)
    requires !Counted(counters, coordinator.name)
    ensures HierarchicalRun(crew, counters, calls, agents, index, coordinator, task, parse).result == Propagated(KeyMessage(coordinator.name))
  {
    var steps := ExtractPlan(crew(calls, coordinator, HierarchyPlan(task, Names(Others(agents, coordinator), AgentName))).text, parse).steps;
    assert FirstRaise(DelegateMisses(counters, index, steps)).None?;
  }

  /** In consensus mode an agent without counters makes the run raise the
      `KeyError` of the first such agent in roster order, after its run and
      before the coordinator's synthesis. */
  lemma ConsensusMissRaises(crew: Crew, counters: Counters, calls: nat, agents: seq<Agent>, coordinator: Agent, task: string, j: nat)
    requires j < |agents| && !Counted(counters, agents[j].name)
    ensures var p := ConsensusRun(crew, counters, calls, agents, coordinator, task);
            exists i :: 0 <= i <= j && !Counted(counters, agents[i].name)
                     && p.result == Propagated(KeyMessage(agents[i].name)) && p.calls == calls + i + 1
  {
    var misses := PollMisses(counters, agents);
    assert misses[j];
    var i := FirstRaise(misses).value;
    assert i <= j;
  }

  /** With every dependency pointing back, a successful plan in parallel
      mode yields the step report and never polls forever. */
  lemma ParallelBackwardAnswers(crew: Crew, counters: Counters, calls: nat, agents: seq<Agent>, index: map<string, Agent>, coordinator: Agent,
                                task: string, parse: PlanParser)
    requires crew(calls, coordinator, ParallelPlan(task, Names(agents, AgentName))).Done?
    requires var plan := ExtractPlan(crew(calls, coordinator, ParallelPlan(task, Names(agents, AgentName))).text, parse);
             plan.Plan? && Backward(plan.steps)
    ensures ParallelRun(crew, counters, calls, agents, index, coordinator, task, parse).result.Answer?
  {
    var steps := ExtractPlan(crew(calls, coordinator, ParallelPlan(task, Names(agents, AgentName))).text, parse).steps;
    var launched := Launch(crew, counters, index, task, steps, Board(Blank(|steps|), calls + 1, []), |steps|);
    BackwardPlansFinish(crew, counters, index, task, steps, launched);
  }

  // ------------------------------------------------ counters never missing

  /** Every event names an agent with counters. */
  predicate AllCounted(counters: Counters, events: seq<Event>) {
    forall e :: e in events ==> Counted(counters, e.name)
  }

  lemma {:induction false} RelayCounted(crew: Crew, counters: Counters, calls: nat, agents: seq<Agent>, coordinator: Agent,
                                        task: string, first: string, n: nat)
    requires n <= |agents| && forall k :: 0 <= k < n ==> !RelayMisses(counters, agents, coordinator)[k]
    ensures AllCounted(counters, Relay(crew, calls, Others(agents[..n], coordinator), task, first).events)
  {
    var others := Others(agents[..n], coordinator);
    var r := Relay(crew, calls, others, task, first);
    RelayShape(crew, calls, others, task, first);
    forall e | e in r.events ensures Counted(counters, e.name) {
      var k :| 0 <= k < |r.events| && r.events[k] == e;
      assert others[k] in others;
      var j :| 0 <= j < n && agents[..n][j] == others[k];
      assert !RelayMisses(counters, agents, coordinator)[j];
    }
  }

  lemma {:induction false} DelegateCounted(crew: Crew, counters: Counters, calls: nat, index: map<string, Agent>, steps: seq<Step>)
    requires forall k :: 0 <= k < |steps| && steps[k].agentName in index ==> Counted(counters, steps[k].agentName)
    ensures AllCounted(counters, Delegate(crew, calls, index, steps).events)
  {
    if steps != [] {
      DelegateCounted(crew, counters, calls, index, steps[..|steps| - 1]);
    }
  }

  lemma {:induction false} ConsultCounted(crew: Crew, counters: Counters, calls: nat, agents: seq<Agent>, task: string)
    requires forall k :: 0 <= k < |agents| ==> Counted(counters, agents[k].name)
    ensures AllCounted(counters, Consult(crew, calls, agents, task).events)
  {
    if agents != [] {
      ConsultCounted(crew, counters, calls, agents[..|agents| - 1], task);
    }
  }

  lemma {:induction false} SweepCounted(crew: Crew, counters: Counters, index: map<string, Agent>, task: string, plan: seq<Step>, b: Board, n: nat)
    requires |b.results| == |plan| && n <= |plan| && AllCounted(counters, b.events)
    ensures AllCounted(counters, Sweep(crew, counters, index, task, plan, b, n).events)
  {
    if n > 0 {
      SweepCounted(crew, counters, index, task, plan, b, n - 1);
    }
  }

  lemma {:induction false} LaunchCounted(crew: Crew, counters: Counters, index: map<string, Agent>, task: string, plan: seq<Step>, b: Board, n: nat)
    requires |b.results| == |plan| && n <= |plan| && AllCounted(counters, b.events)
    ensures AllCounted(counters, Launch(crew, counters, index, task, plan, b, n).events)
  {
    if n > 0 {
      LaunchCounted(crew, counters, index, task, plan, b, n - 1);
    }
  }

  lemma {:induction false} ScheduleCounted(crew: Crew, counters: Counters, index: map<string, Agent>, task: string, plan: seq<Step>, b: Board)
    requires |b.results| == |plan| && AllCounted(counters, b.events)
    ensures AllCounted(counters, Schedule(crew, counters, index, task, plan, b).board.events)
    decreases Unfinished(b.results)
  {
    if Unfinished(b.results) != 0 {
      var next := Sweep(crew, counters, index, task, plan, b, |plan|);
      SweepExtends(crew, counters, index, task, plan, b, |plan|);
      ExtendsUnfinished(b.results, next.results);
      SweepCounted(crew, counters, index, task, plan, b, |plan|);
      if next.results != b.results {
        ScheduleCounted(crew, counters, index, task, plan, next);
      }
    }
  }

  lemma SequentialEventsCounted(crew: Crew, counters: Counters, calls: nat, agents: seq<Agent>, coordinator: Agent, task: string)
    ensures AllCounted(counters, SequentialRun(crew, counters, calls, agents, coordinator, task).events)
  {
    var response := crew(calls, coordinator, Plain(task));
    if response.Done? && Counted(counters, coordinator.name) {
      var misses := RelayMisses(counters, agents, coordinator);
      var n := if FirstRaise(misses).Some? then FirstRaise(misses).value else |agents|;
      RelayCounted(crew, counters, calls + 1, agents, coordinator, task, response.text, n);
      assert agents[..|agents|] == agents;
    }
  }

  lemma ParallelEventsCounted(crew: Crew, counters: Counters, calls: nat, agents: seq<Agent>, index: map<string, Agent>,
                        coordinator: Agent, task: string, parse: PlanParser)
    ensures AllCounted(counters, ParallelRun(crew, counters, calls, agents, index, coordinator, task, parse).events)
  {
    var response := crew(calls, coordinator, ParallelPlan(task, Names(agents, AgentName)));
    if response.Done? && ExtractPlan(response.text, parse).Plan? {
      var steps := ExtractPlan(response.text, parse).steps;
      var blank := Board(Blank(|steps|), calls + 1, []);
      LaunchCounted(crew, counters, index, task, steps, blank, |steps|);
      ScheduleCounted(crew, counters, index, task, steps, Launch(crew, counters, index, task, steps, blank, |steps|));
    }
  }

  lemma HierarchicalEventsCounted(crew: Crew, counters: Counters, calls: nat, agents: seq<Agent>, index: map<string, Agent>,
                            coordinator: Agent, task: string, parse: PlanParser)
    ensures AllCounted(counters, HierarchicalRun(crew, counters, calls, agents, index, coordinator, task, parse).events)
  {
    var response := crew(calls, coordinator, HierarchyPlan(task, Names(Others(agents, coordinator), AgentName)));
    if response.Done? && ExtractPlan(response.text, parse).Plan? {
      var steps := ExtractPlan(response.text, parse).steps;
      var misses := DelegateMisses(counters, index, steps);
      var n := if FirstRaise(misses).Some? then FirstRaise(misses).value else |steps|;
      forall k | 0 <= k < n && steps[..n][k].agentName in index ensures Counted(counters, steps[..n][k].agentName) {
        assert !misses[k];
      }
      DelegateCounted(crew, counters, calls + 1, index, steps[..n]);
      assert steps[..|steps|] == steps;
    }
  }

  lemma ConsensusEventsCounted(crew: Crew, counters: Counters, calls: nat, agents: seq<Agent>, coordinator: Agent, task: string)
    ensures AllCounted(counters, ConsensusRun(crew, counters, calls, agents, coordinator, task).events)
  {
    var misses := PollMisses(counters, agents);
    var n := if FirstRaise(misses).Some? then FirstRaise(misses).value else |agents|;
    forall k | 0 <= k < n ensures Counted(counters, agents[..n][k].name) {
      assert !misses[k];
    }
    ConsultCounted(crew, counters, calls, agents[..n], task);
    assert agents[..|agents|] == agents;
  }

  /** No mode records an event for a name without counters: the lookup
      raises first. So the counter updates of a run never meet a missing
      key, and `Apply` always updates an existing entry. */
  lemma PlayCounted(mode: Mode, crew: Crew, counters: Counters, calls: nat, agents: seq<Agent>, index: map<string, Agent>,
                    coordinator: Agent, task: string, parse: PlanParser)
    ensures AllCounted(counters, Play(mode, crew, counters, calls, agents, index, coordinator, task, parse).events)
  {
    match mode
    case Parallel => ParallelEventsCounted(crew, counters, calls, agents, index, coordinator, task, parse);
    case Hierarchical => HierarchicalEventsCounted(crew, counters, calls, agents, index, coordinator, task, parse);
    case Consensus => ConsensusEventsCounted(crew, counters, calls, agents, coordinator, task);
    case _ => SequentialEventsCounted(crew, counters, calls, agents, coordinator, task);
  }
}
