/**
 * The agent swarm as an object: a completion client that answers requests
 * and keeps a log of them, and the swarm that queries it with retries,
 * relays streamed fragments, and runs the six-stage orchestration for each
 * of its three entry points, recording answers in conversation memory.
 * Every method is proved against the pure model of the orchestration.
 */
module Swarm {
  import opened Wrappers
  import opened Text
  import opened Roles
  import opened Memory
  import opened Pipeline

  /**
   * The completion client. Its answers come from two oracles indexed by the
   * number of requests made before; `requests` logs every request in order.
   */
  class Provider {
    const answer: Oracle
    const streamAnswer: StreamOracle
    var requests: seq<Request>

    constructor (answer: Oracle, streamAnswer: StreamOracle)
      ensures this.answer == answer && this.streamAnswer == streamAnswer
      ensures requests == []
    {
      this.answer := answer;
      this.streamAnswer := streamAnswer;
      requests := [];
    }

    /** A non-streaming `chat.completions.create`. */
    method Complete(req: Request) returns (a: Answer)
      modifies this
      ensures requests == old(requests) + [req]
      ensures a == answer(|old(requests)|, req)
    {
      a := answer(|requests|, req);
      requests := requests + [req];
    }

    /** A `chat.completions.create` with `stream=True`. */
    method Stream(req: Request) returns (a: StreamAnswer)
      modifies this
      ensures requests == old(requests) + [req]
      ensures a == streamAnswer(|old(requests)|, req)
    {
      a := streamAnswer(|requests|, req);
      requests := requests + [req];
    }
  }

  /** What memory holds after a run: the answer recorded as the newest exchange, or nothing new on failure. */
  function Recorded(m: Conversations, u: string, q: string, res: Result<string, Failure>, now: int, cap: nat): Conversations {
    if res.Success? then WithExchange(m, u, Exchange(now, q, res.value), cap) else m
  }

  class AgentSwarm {
    const provider: Provider
    /** `None` when memory is switched off. */
    const memory: ConversationMemory?
    /** `MAX_RETRIES`. */
    const maxRetries: nat
    /** `AGENT_ROLES`, in pipeline order. */
    const roles: seq<Role>
    /** The fixed text of the stage messages. */
    const wording: Wording
    /** How many times a retry delay (`RETRY_DELAY`) was slept. */
    var sleeps: nat

    ghost predicate Valid()
      reads this, memory
    {
      && Roster(roles)
      && (memory != null ==> memory.Valid())
    }

    constructor (provider: Provider, useMemory: bool, maxMemoryItems: nat, maxAgeHours: int, maxRetries: nat)
      ensures Valid()
      ensures this.provider == provider && this.maxRetries == maxRetries && sleeps == 0
      ensures roles == Catalog && wording == SourceWording
      ensures useMemory <==> memory != null
      ensures memory != null ==>
        && fresh(memory) && memory.conversations == map[]
        && memory.maxHistory == maxMemoryItems && memory.maxAge == maxAgeHours * 3600
    {
      this.provider := provider;
      this.maxRetries := maxRetries;
      roles := Catalog;
      wording := SourceWording;
      sleeps := 0;
      CatalogRoster();
      if useMemory {
        memory := new ConversationMemory(maxMemoryItems, maxAgeHours);
      } else {
        memory := null;
      }
    }

    /** How a stage is run: `query_agent`, or `query_agent_stream` relayed by the consumer. */
    function RunnerOf(streaming: bool, parameters: Option<Overrides>): Runner {
      if streaming then StreamRunner(provider.answer, provider.streamAnswer, maxRetries, parameters, wording)
      else AgentRunner(provider.answer, maxRetries, wording)
    }

    /**
     * `run` answers every stage as this swarm's runner does. The equation is
     * only instantiated where a stage is run, at an application of
     * `RunnerOf`, so the proofs that chain stages treat `run` as opaque.
     */
    ghost predicate Drives(run: Runner, streaming: bool, parameters: Option<Overrides>) {
      forall b: nat, role: Role, brief: Brief {:trigger RunnerOf(streaming, parameters)(b, role, brief)} ::
        run(b, role, brief) == RunnerOf(streaming, parameters)(b, role, brief)
    }

    /** The context prefix the entry points build from memory: the last three exchanges. */
    ghost function ContextFor(userId: string): string
      reads this, memory
    {
      if memory == null then "" else ContextInfo(UserContext(memory.conversations, userId, 3))
    }

    /** `handle_streaming_response`: the contents of the deltas that have one, joined. */
    method HandleStreamingResponse(deltas: seq<Option<string>>) returns (r: string)
      ensures r == Concat(Present(deltas))
      ensures Reply(Deltas(deltas)) == Success(Some(r))
    {
      var parts: seq<string> := [];
      for i := 0 to |deltas|
        invariant parts == Present(deltas[..i])
      {
        assert deltas[..i + 1][..i] == deltas[..i];
        if deltas[i].Some? {
          parts := parts + [deltas[i].value];
        }
      }
      assert deltas[..|deltas|] == deltas;
      r := Concat(parts);
    }

    /** The system prompt for `role`: its own prompt, then one line per override. */
    method SystemPrompt(role: Role, parameters: Option<Overrides>) returns (prompt: string)
      ensures prompt == EffectivePrompt(role, parameters)
    {
      var ps: seq<(string, int)> := [];
      if parameters.Some? && OverrideKey(role) in parameters.value {
        ps := parameters.value[OverrideKey(role)];
      }
      prompt := role.system;
      if ps != [] {
        var paramContext := "\nParameters:\n";
        for i := 0 to |ps|
          invariant paramContext == ParamContext(ps[..i])
        {
          assert ps[..i + 1][..i] == ps[..i];
          paramContext := paramContext + ParamLine(ps[i]);
        }
        assert ps[..|ps|] == ps;
        prompt := prompt + "\n" + paramContext;
      }
    }

    /**
     * One pass of `query_agent`'s loop: the request with the role's system
     * prompt is sent; a reply ends the loop with what it carries, the last
     * attempt's failure ends it by raising, and any other failure is followed
     * by one retry delay.
     */
    method Attempt(role: Role, input: string, parameters: Option<Overrides>, last: bool) returns (done: Option<StageResult>)
      modifies this, provider
      ensures var req := Request(EffectivePrompt(role, parameters), input, false);
        && provider.requests == old(provider.requests) + [req]
        && done == Settle(Reply(provider.answer(|old(provider.requests)|, req)), last)
        && sleeps == old(sleeps) + (if done.None? then 1 else 0)
    {
      var prompt := SystemPrompt(role, parameters);
      var a := provider.Complete(Request(prompt, input, false));
      match a {
        case Failed(e) =>
          if last {
            return Some(Raised(e));
          }
          sleeps := sleeps + 1;
          return None;
        case Message(content) =>
          return Some(if content.Some? then Answered(content.value) else NoResult);
        case Deltas(ds) =>
          var text := HandleStreamingResponse(ds);
          return Some(Answered(text));
      }
    }

    /**
     * `query_agent`: up to `maxRetries` attempts with the same request; the
     * first that does not raise gives the answer, a failure before the last
     * attempt is followed by one retry delay, and the last one's failure is
     * raised. With no attempt at all the result is `None`.
     */
    method QueryAgent(role: Role, input: string, parameters: Option<Overrides>) returns (r: StageResult)
      modifies this, provider
      ensures var req := Request(EffectivePrompt(role, parameters), input, false);
        var c := Retry(provider.answer, |old(provider.requests)|, req, 0, maxRetries);
        && r == c.result
        && provider.requests == old(provider.requests) + Repeat(req, c.attempts)
        && sleeps == old(sleeps) + SleepsOf(c)
    {
      ghost var base := |provider.requests|;
      ghost var req0 := Request(EffectivePrompt(role, parameters), input, false);
      for attempt := 0 to maxRetries
        invariant provider.requests == old(provider.requests) + Repeat(req0, attempt)
        invariant sleeps == old(sleeps) + attempt
        invariant attempt == 0 || attempt < maxRetries
        invariant Retry(provider.answer, base, req0, 0, maxRetries) == Retry(provider.answer, base, req0, attempt, maxRetries)
      {
        var done := Attempt(role, input, parameters, attempt == maxRetries - 1);
        AppendAssoc(old(provider.requests), Repeat(req0, attempt), [req0]);
        assert provider.requests == old(provider.requests) + Repeat(req0, attempt + 1);
        assert AttemptReply(provider.answer, base, req0, attempt) == Reply(provider.answer(base + attempt, req0));
        if done.Some? {
          return done.value;
        }
      }
      return NoResult;
    }

    /**
     * `query_agent_stream`: open a stream and pass on every non-empty
     * fragment; if the stream fails, fall back to `query_agent` and pass on
     * what it returns, or let its error through.
     */
    method QueryAgentStream(role: Role, input: string, parameters: Option<Overrides>) returns (g: Gen)
      modifies this, provider
      ensures var s := StreamQuery(provider.answer, provider.streamAnswer, maxRetries,
                                   |old(provider.requests)|, role, input, parameters);
        && g == s.gen
        && provider.requests == old(provider.requests) + s.requests
        && sleeps == old(sleeps) + s.sleeps
    {
      var prompt := SystemPrompt(role, parameters);
      var a := provider.Stream(Request(prompt, input, true));
      var items := PassOn(a.fragments);
      if a.failure.None? {
        return Gen(items, None);
      }
      ghost var mid := provider.requests;
      var r := QueryAgent(role, input, parameters);
      AppendAssoc(old(provider.requests), [Request(EffectivePrompt(role, parameters), input, true)],
                  provider.requests[|mid|..]);
      match r {
        case Answered(t) => g := Gen(items + [Some(t)], None);
        case NoResult => g := Gen(items + [None], None);
        case Raised(e) => g := Gen(items, Some(e));
      }
    }

    /** The loop of `query_agent_stream` over the stream: every non-empty fragment is yielded, in order. */
    method PassOn(fragments: seq<string>) returns (items: seq<Option<string>>)
      ensures items == Lift(NonEmpty(fragments))
    {
      items := [];
      for i := 0 to |fragments|
        invariant items == Lift(NonEmpty(fragments[..i]))
      {
        assert fragments[..i + 1][..i] == fragments[..i];
        if fragments[i] != "" {
          items := items + [Some(fragments[i])];
        }
      }
      assert fragments[..|fragments|] == fragments;
    }

    /**
     * The consumer loop of `process_query_streaming` for one stage: each
     * fragment is added to the stage text and yielded as an event of `role`;
     * a `None` item fails the `+=`, and an error the generator raises ends
     * the stage after the events already yielded.
     */
    method Relay(role: Role, g: Gen) returns (res: Result<string, Failure>, relayed: seq<string>, events: seq<Event>)
      ensures res == Relayed(g) && relayed == Taken(g.items)
      ensures |events| == |relayed|
      ensures forall i :: 0 <= i < |events| ==> events[i] == Event(role.key, role.name, relayed[i])
      ensures res.Success? ==> res.value == Concat(relayed)
    {
      var text := "";
      relayed, events := [], [];
      var i := 0;
      while i < |g.items| && g.items[i].Some?
        invariant i <= |g.items|
        invariant |relayed| == i && forall k :: 0 <= k < i ==> g.items[k] == Some(relayed[k])
        invariant text == Concat(relayed)
        invariant |events| == i && forall k :: 0 <= k < i ==> events[k] == Event(role.key, role.name, relayed[k])
      {
        var chunk := g.items[i].value;
        assert (relayed + [chunk])[..i] == relayed;
        text := text + chunk;
        relayed := relayed + [chunk];
        events := events + [Event(role.key, role.name, chunk)];
        i := i + 1;
      }
      TakenPrefix(g.items, relayed);
      if i < |g.items| {
        return Failure(NoneOutput), relayed, events;
      }
      if g.raised.Some? {
        return Failure(ProviderError(g.raised.value)), relayed, events;
      }
      res := Success(text);
    }

    /** A stage run by `query_agent` with no overrides: the step `AgentStep` describes. */
    method QueryStage(role: Role, input: string) returns (step: Step)
      modifies this, provider
      ensures step == AgentStep(provider.answer, maxRetries, None, |old(provider.requests)|, role, input)
      ensures provider.requests == old(provider.requests) + step.requests
      ensures sleeps == old(sleeps) + step.sleeps
    {
      var before, slept := provider.requests, sleeps;
      var r := QueryAgent(role, input, None);
      var res := match r
        case Answered(t) => Success(t)
        case NoResult => Failure(NoneOutput)
        case Raised(e) => Failure(ProviderError(e));
      step := Step(res, provider.requests[|before|..], sleeps - slept, []);
    }

    /**
     * A stage run by `query_agent_stream` and drained by the consumer loop:
     * the step `StreamStep` describes, and one event per relayed fragment.
     */
    method StreamStage(role: Role, input: string, parameters: Option<Overrides>) returns (step: Step, events: seq<Event>)
      modifies this, provider
      ensures step == StreamStep(provider.answer, provider.streamAnswer, maxRetries, parameters,
                                 |old(provider.requests)|, role, input)
      ensures events == EventsOf(role, step.relayed)
      ensures provider.requests == old(provider.requests) + step.requests
      ensures sleeps == old(sleeps) + step.sleeps
    {
      var before, slept := provider.requests, sleeps;
      var g := QueryAgentStream(role, input, parameters);
      var res, relayed;
      res, relayed, events := Relay(role, g);
      EventsOfUnique(role, relayed, events);
      step := Step(res, provider.requests[|before|..], sleeps - slept, relayed);
    }

    /**
     * One stage as the entry points run it: `query_agent` without overrides,
     * or `query_agent_stream` drained by the consumer loop, with the entry
     * point's overrides for every role but triage.
     */
    method RunStage(role: Role, brief: Brief, streaming: bool, parameters: Option<Overrides>,
                    ghost run: Runner, ghost base: nat, ghost prior: seq<Stage>)
      returns (s: Stage, events: seq<Event>)
      requires Drives(run, streaming, parameters)
      requires |provider.requests| == base + |Requests(prior)|
      modifies this, provider
      ensures s == Invoke(run, base, role, brief, prior)
      ensures events == StageEvents(s)
      ensures provider.requests == old(provider.requests) + s.step.requests
      ensures sleeps == old(sleeps) + s.step.sleeps
    {
      var step;
      if streaming {
        step, events := StreamedStage(role, brief, parameters, run, base + |Requests(prior)|);
      } else {
        step := QueriedStage(role, brief, parameters, run, base + |Requests(prior)|);
        events := [];
      }
      s := Stage(role, brief, step);
    }

    /** A stage of the non-streaming entry points: the step the runner gives for the next request number. */
    method QueriedStage(role: Role, brief: Brief, parameters: Option<Overrides>, ghost run: Runner, ghost at: nat)
      returns (step: Step)
      requires Drives(run, false, parameters)
      requires |provider.requests| == at
      modifies this, provider
      ensures step == run(at, role, brief) && step.relayed == []
      ensures provider.requests == old(provider.requests) + step.requests
      ensures sleeps == old(sleeps) + step.sleeps
    {
      step := QueryStage(role, Render(wording, brief));
      assert step == RunnerOf(false, parameters)(at, role, brief);
    }

    /** A stage of the streaming entry point: the runner's step, and one event per relayed fragment. */
    method StreamedStage(role: Role, brief: Brief, parameters: Option<Overrides>, ghost run: Runner, ghost at: nat)
      returns (step: Step, events: seq<Event>)
      requires Drives(run, true, parameters)
      requires |provider.requests| == at
      modifies this, provider
      ensures step == run(at, role, brief)
      ensures events == EventsOf(role, step.relayed)
      ensures provider.requests == old(provider.requests) + step.requests
      ensures sleeps == old(sleeps) + step.sleeps
    {
      step, events := StreamStage(role, Render(wording, brief), StageOverrides(role, parameters));
      assert step == RunnerOf(true, parameters)(at, role, brief);
    }

    /**
     * Stage `k` after triage, on the input its template builds from the
     * earlier outputs: the step `Continue` takes from `prior`. The request
     * log, the delays and the events grow by this stage's.
     */
    method NextStage(k: nat, q: string, ctx: string, brief: Brief, streaming: bool, parameters: Option<Overrides>,
                     ghost run: Runner, ghost log0: seq<Request>, ghost slept0: nat, ghost prior: seq<Stage>,
                     events0: seq<Event>)
      returns (s: Stage, events: seq<Event>)
      requires |roles| == 6 && Drives(run, streaming, parameters)
      requires 1 <= k <= 5 && |prior| == k && AllOk(prior)
      requires brief == StageBrief(k, q, ctx, prior)
      requires provider.requests == log0 + Requests(prior) && sleeps == slept0 + Sleeps(prior)
      requires events0 == AllEvents(prior)
      modifies this, provider
      ensures s.role == roles[k]
      ensures Continue(run, roles, |log0|, q, ctx, prior) ==
        if !Ok(s) then Run(Aborted(s.step.result.error), prior + [s])
        else if k == 5 then Run(Completed(Out(s)), prior + [s])
        else Continue(run, roles, |log0|, q, ctx, prior + [s])
      ensures events == AllEvents(prior + [s])
      ensures provider.requests == log0 + Requests(prior + [s]) && sleeps == slept0 + Sleeps(prior + [s])
    {
      var e;
      s, e := RunStage(roles[k], brief, streaming, parameters, run, |log0|, prior);
      StagesAppend(prior, s);
      events := events0 + e;
    }

    /**
     * The five stages after a triage answer that is not simple: each runs on
     * a template filled with the outputs before it, and the first failure
     * ends the run. The interpreter and the researcher run here, the rest in
     * `FinishSwarm`.
     */
    method FullSwarm(q: string, ctx: string, streaming: bool, parameters: Option<Overrides>,
                     ghost run: Runner, ghost log0: seq<Request>, ghost slept0: nat, s0: Stage, events0: seq<Event>)
      returns (r: Run, events: seq<Event>)
      requires |roles| == 6 && Drives(run, streaming, parameters)
      requires Ok(s0)
      requires provider.requests == log0 + Requests([s0]) && sleeps == slept0 + Sleeps([s0])
      requires events0 == AllEvents([s0])
      modifies this, provider
      ensures r == Continue(run, roles, |log0|, q, ctx, [s0])
      ensures events == AllEvents(r.stages)
      ensures provider.requests == log0 + Requests(r.stages) && sleeps == slept0 + Sleeps(r.stages)
    {
      var st := [s0];
      assert AllOk(st);

      var s1, e1 := NextStage(1, q, ctx, Interpret(ctx, q), streaming, parameters, run, log0, slept0, st, events0);
      st := st + [s1];
      if !s1.step.result.Success? {
        return Run(Aborted(s1.step.result.error), st), e1;
      }
      var interpretation := s1.step.result.value;
      assert AllOk(st);

      var s2, e2 := NextStage(2, q, ctx, Investigate(interpretation), streaming, parameters, run, log0, slept0, st, e1);
      st := st + [s2];
      if !s2.step.result.Success? {
        return Run(Aborted(s2.step.result.error), st), e2;
      }
      var research := s2.step.result.value;
      assert AllOk(st);

      r, events := FinishSwarm(q, ctx, streaming, parameters, run, log0, slept0, st, e2);
    }

    /**
     * The last three stages, once the interpreter and the researcher have
     * answered: critical analysis, creative exploration and the synthesis of
     * everything; the first failure ends the run.
     */
    method FinishSwarm(q: string, ctx: string, streaming: bool, parameters: Option<Overrides>,
                       ghost run: Runner, ghost log0: seq<Request>, ghost slept0: nat, prior: seq<Stage>,
                       events0: seq<Event>)
      returns (r: Run, events: seq<Event>)
      requires |roles| == 6 && Drives(run, streaming, parameters)
      requires |prior| == 3 && AllOk(prior)
      requires provider.requests == log0 + Requests(prior) && sleeps == slept0 + Sleeps(prior)
      requires events0 == AllEvents(prior)
      modifies this, provider
      ensures r == Continue(run, roles, |log0|, q, ctx, prior)
      ensures events == AllEvents(r.stages)
      ensures provider.requests == log0 + Requests(r.stages) && sleeps == slept0 + Sleeps(r.stages)
    {
      var st := prior;
      var interpretation, research := Out(st[1]), Out(st[2]);

      var s3, e3 := NextStage(3, q, ctx, Critique(research), streaming, parameters, run, log0, slept0, st, events0);
      st := st + [s3];
      if !s3.step.result.Success? {
        return Run(Aborted(s3.step.result.error), st), e3;
      }
      var analysis := s3.step.result.value;
      assert AllOk(st);

      var s4, e4 := NextStage(4, q, ctx, Explore(analysis), streaming, parameters, run, log0, slept0, st, e3);
      st := st + [s4];
      if !s4.step.result.Success? {
        return Run(Aborted(s4.step.result.error), st), e4;
      }
      var perspectives := s4.step.result.value;
      assert AllOk(st);

      var s5, e5 := NextStage(5, q, ctx, Synthesize(q, interpretation, research, analysis, perspectives),
                              streaming, parameters, run, log0, slept0, st, e4);
      st := st + [s5];
      if !s5.step.result.Success? {
        return Run(Aborted(s5.step.result.error), st), e5;
      }
      r, events := Run(Completed(s5.step.result.value), st), e5;
    }

    /**
     * Triage, then, unless triage fails or answers simply, the five stages
     * after it: the run `Orchestrate` describes, on this swarm's runner.
     */
    method Orchestration(q: string, ctx: string, streaming: bool, parameters: Option<Overrides>)
      returns (r: Run, events: seq<Event>)
      requires |roles| == 6
      modifies this, provider
      ensures r == Orchestrate(RunnerOf(streaming, parameters), roles, |old(provider.requests)|, q, ctx)
      ensures events == AllEvents(r.stages)
      ensures provider.requests == old(provider.requests) + Requests(r.stages)
      ensures sleeps == old(sleeps) + Sleeps(r.stages)
    {
      ghost var run := RunnerOf(streaming, parameters);
      ghost var log0, slept0 := provider.requests, sleeps;
      var s0, e0 := RunStage(roles[0], Evaluate(q, ctx), streaming, parameters, run, |log0|, []);
      OneStage(s0);
      if !s0.step.result.Success? {
        return Run(Aborted(s0.step.result.error), [s0]), e0;
      }
      if IsSimple(s0.step.result.value) {
        return Run(Simple(HandleSimple(s0.step.result.value)), [s0]), e0;
      }
      r, events := FullSwarm(q, ctx, streaming, parameters, run, log0, slept0, s0, e0);
    }

    /** The context prefix every entry point builds from memory before triage. */
    method Context(userId: string) returns (ctx: string)
      ensures ctx == ContextFor(userId)
    {
      ctx := "";
      if memory != null {
        var context := memory.GetContext(userId, 3);
        ctx := ContextInfo(context);
      }
    }

    /** An answer is stored as the user's newest exchange when memory is on; a failure stores nothing. */
    method Remember(userId: string, q: string, res: Result<string, Failure>, now: int)
      requires Valid()
      modifies memory
      ensures Valid()
      ensures memory != null ==> memory.cleanupTasks == old(memory.cleanupTasks)
      ensures memory != null ==>
        memory.conversations == Recorded(old(memory.conversations), userId, q, res, now, memory.maxHistory)
    {
      if memory != null && res.Success? {
        memory.AddExchange(userId, q, res.value, now);
      }
    }

    /**
     * `process_query`: the answer of the run on the memory's context, simple
     * or synthesized; a failed stage ends the call with its failure and
     * nothing is stored.
     */
    method ProcessQuery(q: string, userId: string, now: int) returns (res: Result<string, Failure>)
      requires Valid()
      modifies this, provider, memory
      ensures Valid()
      ensures memory != null ==> memory.cleanupTasks == old(memory.cleanupTasks)
      ensures var r := Orchestrate(RunnerOf(false, None), roles, |old(provider.requests)|, q, old(ContextFor(userId)));
        && res == ResultOf(r)
        && provider.requests == old(provider.requests) + Requests(r.stages)
        && sleeps == old(sleeps) + Sleeps(r.stages)
      ensures memory != null ==>
        memory.conversations == Recorded(old(memory.conversations), userId, q, res, now, memory.maxHistory)
    {
      var ctx := Context(userId);
      var r, _ := Orchestration(q, ctx, false, None);
      res := ResultOf(r);
      Remember(userId, q, res, now);
    }

    /**
     * `process_query_with_details`: the same run, answered with every stage's
     * output under its role key, the simple flag and the final answer.
     */
    method ProcessQueryWithDetails(q: string, userId: string, now: int) returns (res: Result<map<string, Detail>, Failure>)
      requires Valid()
      modifies this, provider, memory
      ensures Valid()
      ensures memory != null ==> memory.cleanupTasks == old(memory.cleanupTasks)
      ensures var r := Orchestrate(RunnerOf(false, None), roles, |old(provider.requests)|, q, old(ContextFor(userId)));
        && Shaped(r) && res == Details(r)
        && provider.requests == old(provider.requests) + Requests(r.stages)
        && sleeps == old(sleeps) + Sleeps(r.stages)
        && (memory != null ==>
              memory.conversations == Recorded(old(memory.conversations), userId, q, ResultOf(r), now, memory.maxHistory))
    {
      var ctx := Context(userId);
      var r, _ := Orchestration(q, ctx, false, None);
      OrchestrateShaped(RunnerOf(false, None), roles, |old(provider.requests)|, q, ctx);
      res := Describe(r);
      Remember(userId, q, ResultOf(r), now);
    }

    /**
     * `process_query_streaming`: the events of every stage, fragment by
     * fragment, then the simple answer as one event if triage gave one; the
     * overrides reach every stage but triage. A failing stage ends the stream
     * by raising its failure (`raised`) after the events already yielded.
     */
    method ProcessQueryStreaming(q: string, userId: string, parameters: Option<Overrides>, now: int)
      returns (events: seq<Event>, raised: Option<Failure>)
      requires Valid()
      modifies this, provider, memory
      ensures Valid()
      ensures memory != null ==> memory.cleanupTasks == old(memory.cleanupTasks)
      ensures var r := Orchestrate(RunnerOf(true, parameters), roles, |old(provider.requests)|, q, old(ContextFor(userId)));
        && events == Events(r)
        && (raised.Some? <==> r.outcome.Aborted?)
        && (raised.Some? ==> raised.value == r.outcome.failure)
        && provider.requests == old(provider.requests) + Requests(r.stages)
        && sleeps == old(sleeps) + Sleeps(r.stages)
        && (memory != null ==>
              memory.conversations == Recorded(old(memory.conversations), userId, q, ResultOf(r), now, memory.maxHistory))
    {
      var ctx := Context(userId);
      var r;
      r, events := Orchestration(q, ctx, true, parameters);
      if r.outcome.Simple? {
        events := events + [Event("synthesizer", "Simple Response", r.outcome.answer)];
      }
      raised := if r.outcome.Aborted? then Some(r.outcome.failure) else None;
      Remember(userId, q, ResultOf(r), now);
    }
  }

  /**
   * The result dictionary of `process_query_with_details`, filled in as the
   * stages answer: the flag and an empty synthesizer entry first, then the
   * triage entry, then either the simple answer or each later stage in turn
   * and the final answer. A failed stage propagates its failure instead.
   */
  method Describe(r: Run) returns (res: Result<map<string, Detail>, Failure>)
    requires Shaped(r)
    ensures res == Details(r)
  {
    if r.outcome.Aborted? {
      return Failure(r.outcome.failure);
    }
    var response := map["is_simple_query" := Flag(false), "synthesizer" := Agent("Information Synthesizer", "")];
    response := response["triage" := Agent("Query Triage", Out(r.stages[0]))];
    if r.outcome.Simple? {
      response := response["is_simple_query" := Flag(true)];
      response := response["synthesizer" := Agent("Information Synthesizer", r.outcome.answer)];
      assert response == map["is_simple_query" := Flag(true),
                             "synthesizer" := Agent("Information Synthesizer", r.outcome.answer),
                             "triage" := Agent("Query Triage", Out(r.stages[0]))];
      return Success(response);
    }
    response := response["interpreter" := Agent("Query Interpreter", Out(r.stages[1]))];
    response := response["researcher" := Agent("Research Specialist", Out(r.stages[2]))];
    response := response["critic" := Agent("Critical Analyzer", Out(r.stages[3]))];
    response := response["creative" := Agent("Creative Explorer", Out(r.stages[4]))];
    response := response["synthesizer" := Agent("Information Synthesizer", r.outcome.final)];
    assert response == map["is_simple_query" := Flag(false),
                           "synthesizer" := Agent("Information Synthesizer", r.outcome.final),
                           "triage" := Agent("Query Triage", Out(r.stages[0])),
                           "interpreter" := Agent("Query Interpreter", Out(r.stages[1])),
                           "researcher" := Agent("Research Specialist", Out(r.stages[2])),
                           "critic" := Agent("Critical Analyzer", Out(r.stages[3])),
                           "creative" := Agent("Creative Explorer", Out(r.stages[4]))];
    res := Success(response);
  }
}
