/**
 * The orchestration of one query, as pure functions. The completion provider
 * is an oracle: the answer to a request depends on the request and on how many
 * requests were made before it, so retries and later stages may see different
 * answers. Everything else is the deterministic logic around it: prompt
 * building, the bounded retry loop, the triage short-circuit on `SIMPLE:`, the
 * five further stages in fixed order, the streaming relay with its fallback,
 * and the detailed-result dictionary.
 */
module Pipeline {
  import opened Wrappers
  import opened Text
  import opened Roles

  /**
   * One provider request: system prompt, user message, and whether the
   * streaming path opened it.
   */
  datatype Request = Request(system: string, user: string, streaming: bool)

  /** What the provider does with one non-streaming request. */
  datatype Answer =
    | Failed(error: string)                 // the call raised
    | Message(content: Option<string>)      // one complete message, whose content may be None
    | Deltas(deltas: seq<Option<string>>)   // a stream of deltas; None where a delta has no content

  /**
   * What the provider does with one streaming request: the delta contents it
   * delivers (a missing content as ""), then whether it fails.
   */
  datatype StreamAnswer = StreamAnswer(fragments: seq<string>, failure: Option<string>)

  /** The provider's answer to the request made after `k` earlier requests. */
  type Oracle = (nat, Request) -> Answer

  type StreamOracle = (nat, Request) -> StreamAnswer

  /** How `query_agent` ends: it returns text, returns `None`, or raises. */
  datatype StageResult = Answered(text: string) | NoResult | Raised(error: string)

  /** A `query_agent` call: how it ended and how many provider attempts it made. */
  datatype Call = Call(result: StageResult, attempts: nat)

  /** Why a run stops early: a provider failure, or a `None` stage output used as text. */
  datatype Failure = ProviderError(message: string) | NoneOutput

  /** Per-role parameter overrides, keyed by override key; each an ordered list of (name, value). */
  type Overrides = map<string, seq<(string, int)>>

  // ---------------------------------------------------------------------------
  // One provider call

  /** The contents of the deltas that have one, in arrival order. */
  function Present(ds: seq<Option<string>>): (r: seq<string>)
    ensures |r| <= |ds|
  {
    if ds == [] then []
    else Present(ds[..|ds| - 1]) + (if ds[|ds| - 1].Some? then [ds[|ds| - 1].value] else [])
  }

  /** What one non-streaming attempt returns, or the error it raised. */
  function Reply(a: Answer): Result<Option<string>, string> {
    match a
    case Failed(e) => Failure(e)
    case Message(c) => Success(c)
    case Deltas(ds) => Success(Some(Concat(Present(ds))))
  }

  /** The outcome of the attempt made after `j` earlier attempts of the same call. */
  function AttemptReply(o: Oracle, base: nat, req: Request, j: nat): Result<Option<string>, string> {
    Reply(o(base + j, req))
  }

  /**
   * How one attempt ends the retry loop: with the text or `None` it
   * returned, by raising when it was the last attempt, or not at all.
   */
  function Settle(reply: Result<Option<string>, string>, last: bool): Option<StageResult> {
    match reply
    case Success(Some(t)) => Some(Answered(t))
    case Success(None) => Some(NoResult)
    case Failure(e) => if last then Some(Raised(e)) else None
  }

  /**
   * `query_agent`'s retry loop from attempt `attempt` on, with `n` attempts in
   * all: the first attempt that does not raise ends it with what it returned;
   * the failure of the last attempt is raised; with no attempt at all the
   * result is `None`.
   */
  function Retry(o: Oracle, base: nat, req: Request, attempt: nat, n: nat): Call
    requires attempt <= n
    decreases n - attempt
  {
    if attempt == n then Call(NoResult, n)
    else match Settle(AttemptReply(o, base, req, attempt), attempt == n - 1)
      case Some(r) => Call(r, attempt + 1)
      case None => Retry(o, base, req, attempt + 1, n)
  }

  /** The delay is slept after every failed attempt but the last. */
  function SleepsOf(c: Call): nat {
    if c.attempts == 0 then 0 else c.attempts - 1
  }

  function Repeat(req: Request, k: nat): (r: seq<Request>)
    ensures |r| == k && forall i :: 0 <= i < k ==> r[i] == req
  {
    if k == 0 then [] else Repeat(req, k - 1) + [req]
  }

  /**
   * The retry loop makes at most `n` attempts. It returns what the first attempt
   * that does not raise returned, every earlier attempt having failed; it raises
   * only after all `n` attempts failed, with the last one's error; with no
   * attempt it returns nothing.
   */
  lemma {:induction false} RetrySpec(o: Oracle, base: nat, req: Request, attempt: nat, n: nat)
    requires attempt <= n
    ensures var c := Retry(o, base, req, attempt, n);
      && (attempt < n ==> attempt < c.attempts <= n)
      && (attempt == n ==> c == Call(NoResult, n))
      && (forall j: nat :: attempt <= j < c.attempts - 1 ==> AttemptReply(o, base, req, j).Failure?)
      && (attempt < n && !c.result.Raised? ==>
            AttemptReply(o, base, req, c.attempts - 1)
              == Success(if c.result.Answered? then Some(c.result.text) else None))
      && (c.result.Raised? ==> c.attempts == n && AttemptReply(o, base, req, n - 1) == Failure(c.result.error))
    decreases n - attempt
  {
    if attempt < n && AttemptReply(o, base, req, attempt).Failure? && attempt < n - 1 {
      RetrySpec(o, base, req, attempt + 1, n);
    }
  }

  /** The call raises exactly when there are attempts and every one of them fails. */
  lemma RetryRaisesIffAllAttemptsFail(o: Oracle, base: nat, req: Request, n: nat)
    ensures Retry(o, base, req, 0, n).result.Raised? <==>
            n > 0 && forall j: nat :: j < n ==> AttemptReply(o, base, req, j).Failure?
  {
    RetrySpec(o, base, req, 0, n);
    var c := Retry(o, base, req, 0, n);
    if c.result.Raised? {
      forall j: nat | j < n ensures AttemptReply(o, base, req, j).Failure? {
        if j == n - 1 { assert AttemptReply(o, base, req, n - 1).Failure?; }
      }
    } else if n > 0 {
      assert AttemptReply(o, base, req, c.attempts - 1).Success?;
    }
  }

  /** With three attempts, two failures followed by a message give that message. */
  lemma TwoFailuresThenMessage(o: Oracle, base: nat, req: Request, e1: string, e2: string, t: string)
    requires o(base, req) == Failed(e1) && o(base + 1, req) == Failed(e2) && o(base + 2, req) == Message(Some(t))
    ensures Retry(o, base, req, 0, 3) == Call(Answered(t), 3)
  {
  }

  // ---------------------------------------------------------------------------
  // Prompts

  /** The overrides for `role`: found under its override key only, none when absent. */
  function ParamsFor(role: Role, parameters: Option<Overrides>): seq<(string, int)> {
    if parameters.Some? && OverrideKey(role) in parameters.value then parameters.value[OverrideKey(role)]
    else []
  }

  function ParamLine(p: (string, int)): string {
    "- " + p.0 + ": " + Decimal(p.1) + "%\n"
  }

  const ParamsHeading: string := "\nParameters:\n"

  /** The parameters section: its heading, then one line per override, as the `+=` loop builds it. */
  function ParamContext(ps: seq<(string, int)>): string {
    if ps == [] then ParamsHeading else ParamContext(ps[..|ps| - 1]) + ParamLine(ps[|ps| - 1])
  }

  /** The override lines, one per override, in the order the overrides are given. */
  function ParamLines(ps: seq<(string, int)>): (r: seq<string>)
    ensures |r| == |ps| && forall i :: 0 <= i < |ps| ==> r[i] == ParamLine(ps[i])
  {
    seq(|ps|, i requires 0 <= i < |ps| => ParamLine(ps[i]))
  }

  /** The parameters section is its heading followed by the override lines in order, and nothing else. */
  lemma {:induction false} ParamContextSpec(ps: seq<(string, int)>)
    ensures ParamContext(ps) == ParamsHeading + Concat(ParamLines(ps))
  {
    if ps != [] {
      var init := ps[..|ps| - 1];
      ParamContextSpec(init);
      assert ParamLines(ps)[..|ps| - 1] == ParamLines(init);
      AppendAssoc(ParamsHeading, Concat(ParamLines(init)), ParamLine(ps[|ps| - 1]));
    }
  }

  /** The system prompt sent for `role`: its own prompt, then a parameters section if it has overrides. */
  function EffectivePrompt(role: Role, parameters: Option<Overrides>): string {
    var ps := ParamsFor(role, parameters);
    if ps == [] then role.system else role.system + "\n" + ParamContext(ps)
  }

  /** Each override line lies somewhere in the parameters section. */
  lemma {:induction false} ParamLineIn(ps: seq<(string, int)>, i: nat)
    requires i < |ps|
    ensures Occurs(ParamLine(ps[i]), ParamContext(ps))
  {
    var init := ps[..|ps| - 1];
    if i == |ps| - 1 {
      OccursAtEnd(ParamContext(init), ParamLine(ps[i]));
    } else {
      assert init[i] == ps[i];
      ParamLineIn(init, i);
      OccursBefore(ParamContext(init), ParamLine(ps[|ps| - 1]), ParamLine(ps[i]));
    }
  }

  /**
   * The role's own prompt always opens the system prompt; without overrides it
   * is the whole prompt; with overrides it is followed by a blank line, the
   * parameters heading and one line per override, in order, and nothing else.
   */
  lemma EffectivePromptSpec(role: Role, parameters: Option<Overrides>)
    ensures StartsWith(EffectivePrompt(role, parameters), role.system)
    ensures ParamsFor(role, parameters) == [] ==> EffectivePrompt(role, parameters) == role.system
    ensures var ps := ParamsFor(role, parameters);
      ps != [] ==> EffectivePrompt(role, parameters) == role.system + "\n" + ParamsHeading + Concat(ParamLines(ps))
    ensures var ps := ParamsFor(role, parameters);
      forall i :: 0 <= i < |ps| ==> Occurs(ParamLine(ps[i]), EffectivePrompt(role, parameters))
  {
    var ps := ParamsFor(role, parameters);
    var prompt := EffectivePrompt(role, parameters);
    assert prompt[..|role.system|] == role.system;
    if ps != [] {
      ParamContextSpec(ps);
      AppendAssoc(role.system + "\n", ParamsHeading, Concat(ParamLines(ps)));
    }
    forall i | 0 <= i < |ps| ensures Occurs(ParamLine(ps[i]), prompt) {
      ParamLineIn(ps, i);
      OccursAfter(role.system + "\n", ParamContext(ps), ParamLine(ps[i]));
    }
  }

  /**
   * Overrides keyed by role keys (`"interpreter"`, ...) never reach a prompt:
   * lookups use the display-name key, which is never a role key.
   */
  lemma OverridesByRoleKeyIgnored(roles: seq<Role>, parameters: Overrides)
    requires Roster(roles)
    requires forall k :: k in parameters ==> k in StageKeys
    ensures forall i :: 0 <= i < |roles| ==> EffectivePrompt(roles[i], Some(parameters)) == roles[i].system
  {
    OverrideKeysDistinct(roles);
  }

  // ---------------------------------------------------------------------------
  // Templates and the triage convention

  const Marker: string := "SIMPLE:"

  /** The triage prompt asks for exactly the marker the pipeline tests for. */
  lemma TriagePromptHasMarker()
    ensures Occurs(Marker, Triage.system)
  {
    OccursBetween(TriageHead + "        ", Marker, " <your direct response>\n", TriageTail);
  }

  /** The context prefix: nothing, or a heading followed by the memory's context. */
  function ContextInfo(context: string): string {
    if context == "" then "" else "\nPrevious conversation:\n" + context
  }

  /**
   * The fixed text of the stage messages, piece by piece. The messages below
   * are stated over any wording; `SourceWording` is the text the entry points'
   * f-strings write, and the swarm renders with it.
   */
  datatype Wording = Wording(
    evaluate: string, considering: string, basedOn: string, aspects: string,
    critically: string, given: string, alternatives: string, original: string,
    gap: string, interpretation: string, research: string, analysis: string,
    perspectives: string, closing: string)

  const SourceWording: Wording := Wording(
    evaluate := "Evaluate this query: '",
    considering := "Analyze this query considering the conversation context:\n",
    basedOn := "Based on this interpretation:\n",
    aspects := "\nWhat specific aspects need investigation?",
    critically := "Critically analyze these research points:\n",
    given := "Given this analysis:\n",
    alternatives := "\nExplore creative perspectives and alternatives.",
    original := "\n        Original Query: ",
    gap := "\n        \n        ",
    interpretation := "Interpretation: ",
    research := "Research Points: ",
    analysis := "Critical Analysis: ",
    perspectives := "Creative Perspectives: ",
    closing := "Please synthesize all this information into a comprehensive response.\n        ")

  function TriageInput(w: Wording, q: string, ctx: string): string {
    w.evaluate + q + "'" + ctx
  }

  function InterpreterInput(w: Wording, ctx: string, q: string): string {
    w.considering + ctx + "\nQuery: '" + q + "'"
  }

  function ResearcherInput(w: Wording, interpretation: string): string {
    w.basedOn + interpretation + w.aspects
  }

  function CriticInput(w: Wording, research: string): string {
    w.critically + research
  }

  function CreativeInput(w: Wording, analysis: string): string {
    w.given + analysis + w.alternatives
  }

  /** One labelled section of the synthesis brief, after a blank indented line. */
  function Section(w: Wording, heading: string, text: string): string {
    w.gap + heading + text
  }

  function SynthesisInput(w: Wording, q: string, i: string, r: string, c: string, cr: string): string {
    w.original + q
    + Section(w, w.interpretation, i)
    + Section(w, w.research, r)
    + Section(w, w.analysis, c)
    + Section(w, w.perspectives, cr)
    + Section(w, "", w.closing)
  }

  /**
   * What one stage is asked, before it is written out: the query and the
   * context for triage and the interpreter, the output before it for each
   * middle stage, and everything for the synthesis.
   */
  datatype Brief =
    | Evaluate(query: string, context: string)
    | Interpret(context: string, query: string)
    | Investigate(interpretation: string)
    | Critique(research: string)
    | Explore(analysis: string)
    | Synthesize(query: string, interpretation: string, research: string, analysis: string, perspectives: string)

  /** The user message a brief is sent as: the f-string the entry points write for that stage. */
  function Render(w: Wording, b: Brief): string {
    match b
    case Evaluate(q, ctx) => TriageInput(w, q, ctx)
    case Interpret(ctx, q) => InterpreterInput(w, ctx, q)
    case Investigate(i) => ResearcherInput(w, i)
    case Critique(r) => CriticInput(w, r)
    case Explore(c) => CreativeInput(w, c)
    case Synthesize(q, i, r, c, cr) => SynthesisInput(w, q, i, r, c, cr)
  }

  /** The untrimmed triage test. */
  predicate IsSimple(triage: string) {
    StartsWith(triage, Marker)
  }

  /** `handle_simple_query`: every marker removed, then surrounding whitespace. */
  function HandleSimple(triage: string): string {
    Strip(RemoveAll(triage, Marker))
  }

  /** The memory context is prefixed exactly when there is some. */
  lemma ContextInfoSpec(context: string)
    ensures ContextInfo(context) == "" <==> context == ""
    ensures context != "" ==> ContextInfo(context) == "\nPrevious conversation:\n" + context
  {
  }

  /**
   * A triage answer that is the marker followed by text free of markers is
   * simple, and its answer is that text stripped.
   */
  lemma SimpleAnswer(text: string)
    requires !Occurs(Marker, text)
    ensures IsSimple(Marker + text) && HandleSimple(Marker + text) == Strip(text)
  {
    assert (Marker + text)[..|Marker|] == Marker;
    RemoveAllLeading(Marker, text);
    RemoveAllWithoutOccurrence(text, Marker);
  }

  /**
   * A marker further inside the text is removed too, not only a leading one:
   * text free of markers before it is kept, and the scan goes on after it.
   * No proper suffix of the marker starts it again, so no match straddles
   * the text before it and the marker.
   */
  lemma {:induction false} MarkerRemovedInside(a: string, b: string)
    requires !Occurs(Marker, a)
    ensures RemoveAll(a + Marker + b, Marker) == a + RemoveAll(b, Marker)
    decreases |a|
  {
    if a == "" {
      assert a + Marker + b == Marker + b;
      RemoveAllLeading(Marker, b);
    } else {
      MarkerNotStraddled(a, b);
      NoOccurrenceInTail(Marker, a);
      assert (a + Marker + b)[1..] == a[1..] + Marker + b;
      MarkerRemovedInside(a[1..], b);
      assert a == [a[0]] + a[1..];
    }
  }

  /** Text free of markers, followed by a marker, does not start with one. */
  lemma MarkerNotStraddled(a: string, b: string)
    requires a != "" && !Occurs(Marker, a)
    ensures !StartsWith(a + Marker + b, Marker)
  {
    var s := a + Marker + b;
    assert s[|a|..][..|Marker|] == Marker;
    if |a| >= |Marker| {
      assert a[0..][..|Marker|] == s[..|Marker|];
    } else {
      assert s[|a|] == Marker[0] != Marker[|a|];
    }
  }

  /** A reply with a second marker loses both markers, not only the first. */
  lemma TwoMarkersBothRemoved()
    ensures IsSimple("SIMPLE: a SIMPLE: b") && HandleSimple("SIMPLE: a SIMPLE: b") == "a  b"
  {
    var t := "SIMPLE: a SIMPLE: b";
    assert t == Marker + (" a " + Marker + " b");
    assert t[..|Marker|] == Marker;
    RemoveAllLeading(Marker, " a " + Marker + " b");
    NoOccurrenceWhenLonger(Marker, " a ");
    MarkerRemovedInside(" a ", " b");
    NoOccurrenceWhenLonger(Marker, " b");
    RemoveAllWithoutOccurrence(" b", Marker);
    assert " a " + " b" == " " + "a  b";
    StripOneLeadingSpace("a  b");
  }

  /** The triage test is on the raw output: leading whitespace defeats it. */
  lemma IndentedMarkerNotSimple()
    ensures !IsSimple(" SIMPLE: Paris")
  {
    assert " SIMPLE: Paris"[..|Marker|][0] == ' ' != Marker[0];
  }



  /**
   * Every stage's input carries what it builds on: triage and the interpreter
   * see the query and the context, each later stage the output before it, and
   * the synthesis brief the query and all four intermediate outputs.
   */
  lemma TemplatesCarryTheirInputs(w: Wording, q: string, ctx: string, i: string, r: string, c: string, cr: string)
    ensures Occurs(q, TriageInput(w, q, ctx)) && Occurs(ctx, TriageInput(w, q, ctx))
    ensures Occurs(q, InterpreterInput(w, ctx, q)) && Occurs(ctx, InterpreterInput(w, ctx, q))
    ensures Occurs(i, ResearcherInput(w, i)) && Occurs(r, CriticInput(w, r)) && Occurs(c, CreativeInput(w, c))
    ensures var brief := SynthesisInput(w, q, i, r, c, cr);
      Occurs(q, brief) && Occurs(i, brief) && Occurs(r, brief) && Occurs(c, brief) && Occurs(cr, brief)
  {
    OccursBetween(w.evaluate, q, "'", ctx);
    OccursAtEnd(w.evaluate + q + "'", ctx);
    OccursAtEnd(w.considering + ctx + "\nQuery: '", q);
    OccursBefore(w.considering + ctx + "\nQuery: '" + q, "'", q);
    OccursBetween(w.considering, ctx, "\nQuery: '", q);
    OccursBefore(w.considering + ctx + "\nQuery: '" + q, "'", ctx);
    OccursAt(w.basedOn, i, w.aspects);
    OccursAtEnd(w.critically, r);
    OccursAt(w.given, c, w.alternatives);
    SynthesisCarriesItsInputs(w, q, i, r, c, cr);
  }

  lemma SynthesisCarriesItsInputs(w: Wording, q: string, i: string, r: string, c: string, cr: string)
    ensures var brief := SynthesisInput(w, q, i, r, c, cr);
      Occurs(q, brief) && Occurs(i, brief) && Occurs(r, brief) && Occurs(c, brief) && Occurs(cr, brief)
  {
    var s0 := w.original + q;
    var s1 := s0 + Section(w, w.interpretation, i);
    var s2 := s1 + Section(w, w.research, r);
    var s3 := s2 + Section(w, w.analysis, c);
    var s4 := s3 + Section(w, w.perspectives, cr);
    var tail := Section(w, "", w.closing);
    assert SynthesisInput(w, q, i, r, c, cr) == s4 + tail;
    OccursAtEnd(w.gap + w.interpretation, i);
    OccursAtEnd(w.gap + w.research, r);
    OccursAtEnd(w.gap + w.analysis, c);
    OccursAtEnd(w.gap + w.perspectives, cr);
    OccursAtEnd(w.original, q);
    OccursBefore(s0, Section(w, w.interpretation, i), q);
    OccursAfter(s0, Section(w, w.interpretation, i), i);
    OccursBefore(s1, Section(w, w.research, r), q);
    OccursBefore(s1, Section(w, w.research, r), i);
    OccursAfter(s1, Section(w, w.research, r), r);
    OccursBefore(s2, Section(w, w.analysis, c), q);
    OccursBefore(s2, Section(w, w.analysis, c), i);
    OccursBefore(s2, Section(w, w.analysis, c), r);
    OccursAfter(s2, Section(w, w.analysis, c), c);
    OccursBefore(s3, Section(w, w.perspectives, cr), q);
    OccursBefore(s3, Section(w, w.perspectives, cr), i);
    OccursBefore(s3, Section(w, w.perspectives, cr), r);
    OccursBefore(s3, Section(w, w.perspectives, cr), c);
    OccursAfter(s3, Section(w, w.perspectives, cr), cr);
    OccursBefore(s4, tail, q);
    OccursBefore(s4, tail, i);
    OccursBefore(s4, tail, r);
    OccursBefore(s4, tail, c);
    OccursBefore(s4, tail, cr);
  }

  // ---------------------------------------------------------------------------
  // The pipeline, over any way of running one stage

  /**
   * What running one stage yields: its text or why it failed, the requests it
   * made, the retry delays it slept, and the fragments it relayed as events.
   */
  datatype Step = Step(result: Result<string, Failure>, requests: seq<Request>, sleeps: nat, relayed: seq<string>)

  /** Runs one stage, given the number of requests made before it, the role and its brief. */
  type Runner = (nat, Role, Brief) -> Step

  datatype Stage = Stage(role: Role, brief: Brief, step: Step)

  datatype Outcome = Simple(answer: string) | Completed(final: string) | Aborted(failure: Failure)

  /** A whole run: how it ended and the stages it ran, in order. */
  datatype Run = Run(outcome: Outcome, stages: seq<Stage>)

  predicate Ok(s: Stage) {
    s.step.result.Success?
  }

  function Out(s: Stage): string
    requires Ok(s)
  {
    s.step.result.value
  }

  /** Every request the stages made, in order. */
  function Requests(stages: seq<Stage>): seq<Request> {
    if stages == [] then [] else Requests(stages[..|stages| - 1]) + stages[|stages| - 1].step.requests
  }

  function Sleeps(stages: seq<Stage>): nat {
    if stages == [] then 0 else Sleeps(stages[..|stages| - 1]) + stages[|stages| - 1].step.sleeps
  }

  /** Appending a stage appends its requests, its delays and its events. */
  lemma StagesAppend(prior: seq<Stage>, s: Stage)
    ensures Requests(prior + [s]) == Requests(prior) + s.step.requests
    ensures Sleeps(prior + [s]) == Sleeps(prior) + s.step.sleeps
    ensures AllEvents(prior + [s]) == AllEvents(prior) + StageEvents(s)
  {
    assert (prior + [s])[..|prior|] == prior;
  }

  /** A run of one stage made that stage's requests, delays and events. */
  lemma OneStage(s: Stage)
    ensures Requests([s]) == s.step.requests && Sleeps([s]) == s.step.sleeps && AllEvents([s]) == StageEvents(s)
  {
    StagesAppend([], s);
    assert [] + [s] == [s];
    assert [] + s.step.requests == s.step.requests;
    assert [] + StageEvents(s) == StageEvents(s);
  }

  /** Runs the next stage after `prior`: its requests follow all of theirs. */
  function Invoke(run: Runner, base: nat, role: Role, brief: Brief, prior: seq<Stage>): Stage {
    Stage(role, brief, run(base + |Requests(prior)|, role, brief))
  }

  predicate AllOk(stages: seq<Stage>) {
    forall k :: 0 <= k < |stages| ==> Ok(stages[k])
  }

  /** The brief of stage `k` after triage, built from the query, the context and the earlier outputs. */
  function StageBrief(k: nat, q: string, ctx: string, prior: seq<Stage>): Brief
    requires 1 <= k <= 5 && |prior| == k && AllOk(prior)
  {
    if k == 1 then Interpret(ctx, q)
    else if k == 2 then Investigate(Out(prior[1]))
    else if k == 3 then Critique(Out(prior[2]))
    else if k == 4 then Explore(Out(prior[3]))
    else Synthesize(q, Out(prior[1]), Out(prior[2]), Out(prior[3]), Out(prior[4]))
  }

  /**
   * The stages after triage: each runs on the input built from the ones before
   * it; the first that fails aborts the run, and the synthesizer's success
   * completes it.
   */
  function Continue(run: Runner, roles: seq<Role>, base: nat, q: string, ctx: string, prior: seq<Stage>): (r: Run)
    requires |roles| == 6 && 1 <= |prior| <= 5 && AllOk(prior)
    ensures |prior| < |r.stages| <= 6
    decreases 6 - |prior|
  {
    var k := |prior|;
    var s := Invoke(run, base, roles[k], StageBrief(k, q, ctx, prior), prior);
    if !Ok(s) then Run(Aborted(s.step.result.error), prior + [s])
    else if k == 5 then Run(Completed(Out(s)), prior + [s])
    else Continue(run, roles, base, q, ctx, prior + [s])
  }

  /**
   * The orchestration of one query with context prefix `ctx`: triage; an
   * answer marked simple ends the run; otherwise interpreter, researcher,
   * critic, creative and synthesizer run in turn.
   */
  function Orchestrate(run: Runner, roles: seq<Role>, base: nat, q: string, ctx: string): (r: Run)
    requires |roles| == 6
    ensures 1 <= |r.stages| <= 6
  {
    var s0 := Invoke(run, base, roles[0], Evaluate(q, ctx), []);
    if !Ok(s0) then Run(Aborted(s0.step.result.error), [s0])
    else if IsSimple(Out(s0)) then Run(Simple(HandleSimple(Out(s0))), [s0])
    else Continue(run, roles, base, q, ctx, [s0])
  }

  /** What the run answers, which is also what memory records. */
  function ResultOf(r: Run): Result<string, Failure> {
    match r.outcome
    case Simple(a) => Success(a)
    case Completed(f) => Success(f)
    case Aborted(e) => Failure(e)
  }

  /** `Continue` keeps the stages it is given and adds at least one, up to six in all. */
  lemma {:induction false} ContinueShape(run: Runner, roles: seq<Role>, base: nat, q: string, ctx: string, prior: seq<Stage>)
    requires |roles| == 6 && 1 <= |prior| <= 5 && AllOk(prior)
    ensures var r := Continue(run, roles, base, q, ctx, prior);
      && |prior| < |r.stages| <= 6
      && r.stages[..|prior|] == prior
    decreases 6 - |prior|
  {
    var k := |prior|;
    var s := Invoke(run, base, roles[k], StageBrief(k, q, ctx, prior), prior);
    var next := prior + [s];
    assert next[..k] == prior;
    if Ok(s) && k < 5 {
      assert AllOk(next);
      ContinueShape(run, roles, base, q, ctx, next);
      var r := Continue(run, roles, base, q, ctx, next);
      assert r.stages[..k] == r.stages[..k + 1][..k];
    }
  }

  /**
   * After triage a run aborts exactly when its last stage failed, and
   * otherwise completes with the synthesizer's output after six stages.
   */
  lemma {:induction false} ContinueOutcome(run: Runner, roles: seq<Role>, base: nat, q: string, ctx: string, prior: seq<Stage>)
    requires |roles| == 6 && 1 <= |prior| <= 5 && AllOk(prior)
    ensures var r := Continue(run, roles, base, q, ctx, prior);
      && |r.stages| >= 1
      && AllOk(r.stages[..|r.stages| - 1])
      && (r.outcome.Aborted? <==> !Ok(r.stages[|r.stages| - 1]))
      && (r.outcome.Aborted? ==> r.outcome.failure == r.stages[|r.stages| - 1].step.result.error)
      && !r.outcome.Simple?
      && (r.outcome.Completed? ==> |r.stages| == 6 && r.outcome.final == Out(r.stages[5]))
    decreases 6 - |prior|
  {
    var k := |prior|;
    var s := Invoke(run, base, roles[k], StageBrief(k, q, ctx, prior), prior);
    var next := prior + [s];
    if Ok(s) && k < 5 {
      assert AllOk(next);
      ContinueOutcome(run, roles, base, q, ctx, next);
      ContinueShape(run, roles, base, q, ctx, next);
    } else {
      assert next[..|next| - 1] == prior;
    }
  }

  /** Stage `k` ran the catalog's `k`-th role on the input built from the successful stages before it. */
  predicate StageAt(run: Runner, roles: seq<Role>, base: nat, q: string, ctx: string, st: seq<Stage>, k: nat)
    requires |roles| == 6 && 1 <= k < |st| <= 6
  {
    AllOk(st[..k]) && st[k] == Invoke(run, base, roles[k], StageBrief(k, q, ctx, st[..k]), st[..k])
  }

  lemma {:induction false} ContinueStages(run: Runner, roles: seq<Role>, base: nat, q: string, ctx: string, prior: seq<Stage>)
    requires |roles| == 6 && 1 <= |prior| <= 5 && AllOk(prior)
    ensures var r := Continue(run, roles, base, q, ctx, prior);
      forall k :: |prior| <= k < |r.stages| <= 6 ==> StageAt(run, roles, base, q, ctx, r.stages, k)
    decreases 6 - |prior|
  {
    var k := |prior|;
    var s := Invoke(run, base, roles[k], StageBrief(k, q, ctx, prior), prior);
    var next := prior + [s];
    assert next[..k] == prior;
    ContinueShape(run, roles, base, q, ctx, prior);
    if Ok(s) && k < 5 {
      assert AllOk(next);
      ContinueStages(run, roles, base, q, ctx, next);
      ContinueShape(run, roles, base, q, ctx, next);
      var r := Continue(run, roles, base, q, ctx, next);
      assert r.stages[..k] == r.stages[..k + 1][..k];
      assert StageAt(run, roles, base, q, ctx, r.stages, k);
    }
  }

  /** Stages run in catalog order, one to six of them. */
  lemma OrchestrateRoles(run: Runner, roles: seq<Role>, base: nat, q: string, ctx: string)
    requires |roles| == 6
    ensures var st := Orchestrate(run, roles, base, q, ctx).stages;
      && 1 <= |st| <= 6
      && (forall k :: 0 <= k < |st| ==> st[k].role == roles[k])
  {
    var r := Orchestrate(run, roles, base, q, ctx);
    var s0 := Invoke(run, base, roles[0], Evaluate(q, ctx), []);
    if Ok(s0) && !IsSimple(Out(s0)) {
      ContinueShape(run, roles, base, q, ctx, [s0]);
      ContinueStages(run, roles, base, q, ctx, [s0]);
      assert r.stages[0] == r.stages[..1][0] == s0;
      forall k | 0 <= k < |r.stages|
        ensures r.stages[k].role == roles[k]
      {
        if k > 0 { assert StageAt(run, roles, base, q, ctx, r.stages, k); }
      }
    }
  }

  /** Each stage is run after all the requests of the stages before it. */
  lemma OrchestrateSequential(run: Runner, roles: seq<Role>, base: nat, q: string, ctx: string)
    requires |roles| == 6
    ensures var st := Orchestrate(run, roles, base, q, ctx).stages;
      forall k :: 0 <= k < |st| ==> st[k] == Invoke(run, base, st[k].role, st[k].brief, st[..k])
  {
    var r := Orchestrate(run, roles, base, q, ctx);
    var s0 := Invoke(run, base, roles[0], Evaluate(q, ctx), []);
    if Ok(s0) && !IsSimple(Out(s0)) {
      ContinueShape(run, roles, base, q, ctx, [s0]);
      ContinueStages(run, roles, base, q, ctx, [s0]);
      assert r.stages[0] == r.stages[..1][0] == s0;
      forall k | 0 <= k < |r.stages|
        ensures r.stages[k] == Invoke(run, base, r.stages[k].role, r.stages[k].brief, r.stages[..k])
      {
        if k == 0 { assert r.stages[..0] == []; } else { assert StageAt(run, roles, base, q, ctx, r.stages, k); }
      }
    } else {
      assert r.stages[..0] == [];
    }
  }

  /**
   * How a run ends: every stage but the last succeeded; it aborts exactly
   * when its last stage failed, with that failure; it is simple exactly when
   * triage succeeded with a marked answer, and then triage is its only stage;
   * otherwise it completes after all six stages with the synthesizer's output.
   */
  lemma OrchestrateOutcome(run: Runner, roles: seq<Role>, base: nat, q: string, ctx: string)
    requires |roles| == 6
    ensures var r := Orchestrate(run, roles, base, q, ctx);
      var last := r.stages[|r.stages| - 1];
      && AllOk(r.stages[..|r.stages| - 1])
      && (r.outcome.Aborted? <==> !Ok(last))
      && (r.outcome.Aborted? ==> r.outcome.failure == last.step.result.error)
      && (r.outcome.Simple? <==> Ok(r.stages[0]) && IsSimple(Out(r.stages[0])))
      && (r.outcome.Simple? ==> |r.stages| == 1 && r.outcome.answer == HandleSimple(Out(r.stages[0])))
      && (r.outcome.Completed? ==> |r.stages| == 6 && r.outcome.final == Out(last))
      && (|r.stages| > 1 ==> Ok(r.stages[0]) && !IsSimple(Out(r.stages[0])))
      && (ResultOf(r).Success? <==> Ok(last))
  {
    var r := Orchestrate(run, roles, base, q, ctx);
    var s0 := Invoke(run, base, roles[0], Evaluate(q, ctx), []);
    if Ok(s0) && !IsSimple(Out(s0)) {
      ContinueShape(run, roles, base, q, ctx, [s0]);
      ContinueOutcome(run, roles, base, q, ctx, [s0]);
      assert r.stages[0] == r.stages[..1][0] == s0;
    } else {
      assert r.stages[..0] == [];
    }
  }

  /** Triage and the interpreter see the query and the context. */
  lemma OrchestrateOpeningInputs(w: Wording, run: Runner, roles: seq<Role>, base: nat, q: string, ctx: string)
    requires |roles| == 6
    ensures var st := Orchestrate(run, roles, base, q, ctx).stages;
      && Occurs(q, Render(w, st[0].brief)) && Occurs(ctx, Render(w, st[0].brief))
      && (|st| > 1 ==> Occurs(q, Render(w, st[1].brief)) && Occurs(ctx, Render(w, st[1].brief)))
  {
    var st := Orchestrate(run, roles, base, q, ctx).stages;
    var s0 := Invoke(run, base, roles[0], Evaluate(q, ctx), []);
    TemplatesCarryTheirInputs(w, q, ctx, "", "", "", "");
    if Ok(s0) && !IsSimple(Out(s0)) {
      ContinueShape(run, roles, base, q, ctx, [s0]);
      ContinueStages(run, roles, base, q, ctx, [s0]);
      assert st[0] == st[..1][0] == s0;
      assert StageAt(run, roles, base, q, ctx, st, 1);
    }
  }

  /** Stage `k` was given the previous stage's output. */
  predicate Feeds(w: Wording, st: seq<Stage>, k: int) {
    1 <= k < |st| && Ok(st[k - 1]) && Occurs(Out(st[k - 1]), Render(w, st[k].brief))
  }

  /** The message of a stage after the interpreter holds the output of the stage before it. */
  lemma StageBriefCarries(w: Wording, k: nat, q: string, ctx: string, prior: seq<Stage>)
    requires 2 <= k <= 5 && |prior| == k && AllOk(prior)
    ensures Occurs(Out(prior[k - 1]), Render(w, StageBrief(k, q, ctx, prior)))
  {
    var o := Out(prior[k - 1]);
    if k == 2 {
      assert Render(w, StageBrief(k, q, ctx, prior)) == ResearcherInput(w, o);
      OccursAt(w.basedOn, o, w.aspects);
    } else if k == 3 {
      assert Render(w, StageBrief(k, q, ctx, prior)) == CriticInput(w, o);
      OccursAtEnd(w.critically, o);
    } else if k == 4 {
      assert Render(w, StageBrief(k, q, ctx, prior)) == CreativeInput(w, o);
      OccursAt(w.given, o, w.alternatives);
    } else {
      assert Render(w, StageBrief(k, q, ctx, prior)) == SynthesisInput(w, q, Out(prior[1]), Out(prior[2]), Out(prior[3]), o);
      SynthesisCarriesItsInputs(w, q, Out(prior[1]), Out(prior[2]), Out(prior[3]), o);
    }
  }

  /** Every stage after the interpreter sees the output of the one before it. */
  lemma OrchestrateFeeds(w: Wording, run: Runner, roles: seq<Role>, base: nat, q: string, ctx: string)
    requires |roles| == 6
    ensures var st := Orchestrate(run, roles, base, q, ctx).stages;
      forall k :: 2 <= k < |st| ==> Feeds(w, st, k)
  {
    var st := Orchestrate(run, roles, base, q, ctx).stages;
    var s0 := Invoke(run, base, roles[0], Evaluate(q, ctx), []);
    if Ok(s0) && !IsSimple(Out(s0)) {
      ContinueShape(run, roles, base, q, ctx, [s0]);
      ContinueStages(run, roles, base, q, ctx, [s0]);
      forall k | 2 <= k < |st| ensures Feeds(w, st, k) {
        assert StageAt(run, roles, base, q, ctx, st, k);
        assert st[..k][k - 1] == st[k - 1];
        StageBriefCarries(w, k, q, ctx, st[..k]);
      }
    }
  }

  lemma BriefCarries(w: Wording, q: string, ctx: string, prior: seq<Stage>)
    requires |prior| == 5 && AllOk(prior)
    ensures Occurs(q, Render(w, StageBrief(5, q, ctx, prior)))
    ensures forall k :: 1 <= k < 5 ==> Occurs(Out(prior[k]), Render(w, StageBrief(5, q, ctx, prior)))
  {
    SynthesisCarriesItsInputs(w, q, Out(prior[1]), Out(prior[2]), Out(prior[3]), Out(prior[4]));
  }

  /** The synthesizer sees the query and all four intermediate outputs. */
  lemma OrchestrateBrief(w: Wording, run: Runner, roles: seq<Role>, base: nat, q: string, ctx: string)
    requires |roles| == 6
    ensures var st := Orchestrate(run, roles, base, q, ctx).stages;
      |st| == 6 ==>
        && Occurs(q, Render(w, st[5].brief))
        && forall k :: 1 <= k < 5 ==> Ok(st[k]) && Occurs(Out(st[k]), Render(w, st[5].brief))
  {
    var st := Orchestrate(run, roles, base, q, ctx).stages;
    var s0 := Invoke(run, base, roles[0], Evaluate(q, ctx), []);
    if |st| == 6 {
      ContinueShape(run, roles, base, q, ctx, [s0]);
      ContinueStages(run, roles, base, q, ctx, [s0]);
      assert StageAt(run, roles, base, q, ctx, st, 5);
      BriefCarries(w, q, ctx, st[..5]);
      forall k | 1 <= k < 5 ensures Ok(st[k]) && Occurs(Out(st[k]), Render(w, st[5].brief)) {
        assert st[..5][k] == st[k];
      }
    }
  }

  // ---------------------------------------------------------------------------
  // Running a stage without streaming

  /** A stage run by `query_agent`: text, `None` used as text, or the raised error. */
  function AgentStep(o: Oracle, n: nat, parameters: Option<Overrides>, base: nat, role: Role, input: string): Step {
    var req := Request(EffectivePrompt(role, parameters), input, false);
    var c := Retry(o, base, req, 0, n);
    var result := match c.result
      case Answered(t) => Success(t)
      case NoResult => Failure(NoneOutput)
      case Raised(e) => Failure(ProviderError(e));
    Step(result, Repeat(req, c.attempts), SleepsOf(c), [])
  }

  /** The non-streaming entry points pass no parameter overrides. */
  function AgentRunner(o: Oracle, n: nat, w: Wording): Runner {
    (base: nat, role: Role, brief: Brief) => AgentStep(o, n, None, base, role, Render(w, brief))
  }

  // ---------------------------------------------------------------------------
  // Running a stage with streaming

  /** The fragments `query_agent_stream` passes on: the non-empty ones, in order. */
  function NonEmpty(fs: seq<string>): (r: seq<string>)
    ensures |r| <= |fs| && forall x :: x in r ==> x != ""
  {
    if fs == [] then []
    else NonEmpty(fs[..|fs| - 1]) + (if fs[|fs| - 1] == "" then [] else [fs[|fs| - 1]])
  }

  /** Dropping empty fragments does not change their concatenation. */
  lemma {:induction false} NonEmptyConcat(fs: seq<string>)
    ensures Concat(NonEmpty(fs)) == Concat(fs)
  {
    if fs != [] {
      var init := fs[..|fs| - 1];
      var last := fs[|fs| - 1];
      NonEmptyConcat(init);
      ConcatSplit(NonEmpty(init), if last == "" then [] else [last]);
      assert Concat([last]) == last by { assert [last][..0] == []; }
    }
  }

  function Lift(xs: seq<string>): (r: seq<Option<string>>)
    ensures |r| == |xs| && forall i :: 0 <= i < |xs| ==> r[i] == Some(xs[i])
  {
    if xs == [] then [] else Lift(xs[..|xs| - 1]) + [Some(xs[|xs| - 1])]
  }

  /** What a stage's generator produced: its items (None where the fallback returned None), then whether it raised. */
  datatype Gen = Gen(items: seq<Option<string>>, raised: Option<string>)

  datatype Streamed = Streamed(gen: Gen, requests: seq<Request>, sleeps: nat)

  /**
   * `query_agent_stream`: open a stream and pass on its non-empty fragments;
   * if the stream fails, after whatever it already delivered, fall back to
   * `query_agent` with the same role, input and parameters, and pass on what
   * it returns, or let its error through.
   */
  function StreamQuery(o: Oracle, so: StreamOracle, n: nat, base: nat, role: Role, input: string,
                       parameters: Option<Overrides>): Streamed
  {
    var prompt := EffectivePrompt(role, parameters);
    var streamReq := Request(prompt, input, true);
    var a := so(base, streamReq);
    var passed := Lift(NonEmpty(a.fragments));
    if a.failure.None? then Streamed(Gen(passed, None), [streamReq], 0)
    else
      var req := Request(prompt, input, false);
      var c := Retry(o, base + 1, req, 0, n);
      var requests := [streamReq] + Repeat(req, c.attempts);
      match c.result
      case Answered(t) => Streamed(Gen(passed + [Some(t)], None), requests, SleepsOf(c))
      case NoResult => Streamed(Gen(passed + [None], None), requests, SleepsOf(c))
      case Raised(e) => Streamed(Gen(passed, Some(e)), requests, SleepsOf(c))
  }

  /** The texts the consumer relays: the items up to the first None. */
  function Taken(items: seq<Option<string>>): (r: seq<string>)
    ensures |r| <= |items|
    ensures forall i :: 0 <= i < |r| ==> items[i] == Some(r[i])
    ensures |r| < |items| ==> items[|r|].None?
  {
    if items == [] || items[0].None? then [] else [items[0].value] + Taken(items[1..])
  }

  /** The texts of a run of present items ending at a `None` or at the end are what the consumer takes. */
  lemma {:induction false} TakenPrefix(items: seq<Option<string>>, xs: seq<string>)
    requires |xs| <= |items|
    requires forall k :: 0 <= k < |xs| ==> items[k] == Some(xs[k])
    requires |xs| == |items| || items[|xs|].None?
    ensures Taken(items) == xs
  {
    if xs != [] {
      TakenPrefix(items[1..], xs[1..]);
    }
  }

  /**
   * The consumer's view of a stage: the concatenation of what it relayed, or
   * the failure that stopped it (a None item, then an error the generator raised).
   */
  function Relayed(g: Gen): Result<string, Failure> {
    if |Taken(g.items)| < |g.items| then Failure(NoneOutput)
    else if g.raised.Some? then Failure(ProviderError(g.raised.value))
    else Success(Concat(Taken(g.items)))
  }

  /** A stage run by `query_agent_stream` and relayed by the consumer. */
  function StreamStep(o: Oracle, so: StreamOracle, n: nat, parameters: Option<Overrides>,
                      base: nat, role: Role, input: string): Step
  {
    var s := StreamQuery(o, so, n, base, role, input, parameters);
    Step(Relayed(s.gen), s.requests, s.sleeps, Taken(s.gen.items))
  }

  /** The streaming entry point passes its overrides to every stage but triage. */
  function StageOverrides(role: Role, parameters: Option<Overrides>): Option<Overrides> {
    if role.key == "triage" then None else parameters
  }

  function StreamRunner(o: Oracle, so: StreamOracle, n: nat, parameters: Option<Overrides>, w: Wording): Runner {
    (base: nat, role: Role, brief: Brief) =>
      StreamStep(o, so, n, StageOverrides(role, parameters), base, role, Render(w, brief))
  }

  /**
   * A stream that ends normally gives the stage the concatenation of all its
   * fragments, relayed piece by piece; that is the text the non-streaming path
   * gets from the same fragments delivered as deltas.
   */
  lemma StreamWithoutFailure(o: Oracle, so: StreamOracle, n: nat, parameters: Option<Overrides>,
                             base: nat, role: Role, input: string)
    requires so(base, Request(EffectivePrompt(role, parameters), input, true)).failure.None?
    ensures var fs := so(base, Request(EffectivePrompt(role, parameters), input, true)).fragments;
      var step := StreamStep(o, so, n, parameters, base, role, input);
      && step.result == Success(Concat(fs))
      && step.relayed == NonEmpty(fs)
      && step.requests == [Request(EffectivePrompt(role, parameters), input, true)]
      && Reply(Deltas(Lift(fs))) == Success(Some(Concat(fs)))
  {
    var fs := so(base, Request(EffectivePrompt(role, parameters), input, true)).fragments;
    TakenLift(NonEmpty(fs));
    NonEmptyConcat(fs);
    PresentLift(fs);
  }

  lemma {:induction false} TakenLift(xs: seq<string>)
    ensures Taken(Lift(xs)) == xs
  {
    if xs != [] {
      assert Lift(xs)[1..] == Lift(xs[1..]);
      TakenLift(xs[1..]);
    }
  }

  lemma {:induction false} PresentLift(xs: seq<string>)
    ensures Present(Lift(xs)) == xs
  {
    if xs != [] {
      assert Lift(xs)[..|xs| - 1] == Lift(xs[..|xs| - 1]);
      PresentLift(xs[..|xs| - 1]);
    }
  }

  /**
   * When a stream fails, what it delivered stays relayed and the fallback's
   * whole answer follows it: the stage text repeats whatever the provider
   * had already streamed. A fallback that raises, or returns None, fails the
   * stage after the same relayed fragments.
   */
  lemma StreamFallback(o: Oracle, so: StreamOracle, n: nat, parameters: Option<Overrides>,
                       base: nat, role: Role, input: string)
    requires so(base, Request(EffectivePrompt(role, parameters), input, true)).failure.Some?
    ensures var fs := so(base, Request(EffectivePrompt(role, parameters), input, true)).fragments;
      var req := Request(EffectivePrompt(role, parameters), input, false);
      var c := Retry(o, base + 1, req, 0, n);
      var step := StreamStep(o, so, n, parameters, base, role, input);
      && step.requests == [Request(EffectivePrompt(role, parameters), input, true)] + Repeat(req, c.attempts)
      && step.sleeps == SleepsOf(c)
      && (c.result.Answered? ==>
            step.relayed == NonEmpty(fs) + [c.result.text] && step.result == Success(Concat(fs) + c.result.text))
      && (c.result.Raised? ==>
            step.relayed == NonEmpty(fs) && step.result == Failure(ProviderError(c.result.error)))
      && (c.result.NoResult? ==> step.relayed == NonEmpty(fs) && step.result == Failure(NoneOutput))
  {
    var fs := so(base, Request(EffectivePrompt(role, parameters), input, true)).fragments;
    var req := Request(EffectivePrompt(role, parameters), input, false);
    var c := Retry(o, base + 1, req, 0, n);
    var g := StreamQuery(o, so, n, base, role, input, parameters).gen;
    var kept := NonEmpty(fs);
    match c.result {
      case Answered(t) =>
        assert g == Gen(Lift(kept) + [Some(t)], None);
        TakenAppend(kept, t);
        AnsweredAfterFragments(fs, t);
      case Raised(e) =>
        assert g == Gen(Lift(kept), Some(e));
        TakenLift(kept);
      case NoResult =>
        assert g == Gen(Lift(kept) + [None], None);
        TakenNone(kept);
    }
  }

  lemma AnsweredAfterFragments(fs: seq<string>, t: string)
    ensures Concat(NonEmpty(fs) + [t]) == Concat(fs) + t
  {
    NonEmptyConcat(fs);
    ConcatSplit(NonEmpty(fs), [t]);
    assert Concat([t]) == t by { assert [t][..0] == []; }
  }

  lemma {:induction false} TakenAppend(xs: seq<string>, t: string)
    ensures Taken(Lift(xs) + [Some(t)]) == xs + [t]
  {
    if xs == [] {
      assert Lift(xs) + [Some(t)] == [Some(t)];
    } else {
      assert (Lift(xs) + [Some(t)])[1..] == Lift(xs[1..]) + [Some(t)];
      TakenAppend(xs[1..], t);
    }
  }

  lemma {:induction false} TakenNone(xs: seq<string>)
    ensures Taken(Lift(xs) + [None]) == xs
  {
    if xs == [] {
      assert Lift(xs) + [None] == [None];
    } else {
      assert (Lift(xs) + [None])[1..] == Lift(xs[1..]) + [None];
      TakenNone(xs[1..]);
    }
  }

  /** Whatever a streamed stage answers is exactly the concatenation of the fragments it relayed. */
  lemma StreamStepRelaysItsText(o: Oracle, so: StreamOracle, n: nat, parameters: Option<Overrides>,
                                base: nat, role: Role, input: string)
    ensures var step := StreamStep(o, so, n, parameters, base, role, input);
      step.result.Success? ==> step.result.value == Concat(step.relayed)
  {
  }

  /**
   * The fallback repeats text: a stream that delivered `partial` and then
   * failed, followed by a retry answered with `full`, relays both and gives
   * the stage `partial + full`; where `full` is the whole answer, its opening
   * `partial` appears twice.
   */
  lemma FallbackRepeatsStreamedText(o: Oracle, so: StreamOracle, n: nat, base: nat, role: Role, input: string,
                                    partial: string, e: string, full: string)
    requires n >= 1 && partial != ""
    requires so(base, Request(EffectivePrompt(role, None), input, true)) == StreamAnswer([partial], Some(e))
    requires o(base + 1, Request(EffectivePrompt(role, None), input, false)) == Message(Some(full))
    ensures StreamStep(o, so, n, None, base, role, input).result == Success(partial + full)
    ensures StreamStep(o, so, n, None, base, role, input).relayed == [partial, full]
  {
    var req := Request(EffectivePrompt(role, None), input, false);
    assert AttemptReply(o, base + 1, req, 0) == Success(Some(full));
    assert Retry(o, base + 1, req, 0, n).result == Answered(full);
    StreamFallback(o, so, n, None, base, role, input);
    OneFragment(partial);
  }

  /** A single non-empty fragment is passed on as it is, and is the whole text. */
  lemma OneFragment(t: string)
    requires t != ""
    ensures NonEmpty([t]) == [t] && Concat([t]) == t
  {
    assert [t][..0] == [];
  }

  // ---------------------------------------------------------------------------
  // Streamed events

  /** One event of the streaming entry point: role key, display name, text. */
  datatype Event = Event(role: string, name: string, content: string)

  /** A stage's events: one per relayed fragment, under the stage's role. */
  function StageEvents(s: Stage): seq<Event> {
    EventsOf(s.role, s.step.relayed)
  }

  function EventsOf(role: Role, texts: seq<string>): seq<Event> {
    if texts == [] then [] else EventsOf(role, texts[..|texts| - 1]) + [Event(role.key, role.name, texts[|texts| - 1])]
  }

  /** The `i`-th event carries the `i`-th fragment, under the role's key and display name. */
  lemma {:induction false} EventsOfSpec(role: Role, texts: seq<string>)
    ensures var r := EventsOf(role, texts);
      |r| == |texts| && forall i :: 0 <= i < |r| ==> r[i] == Event(role.key, role.name, texts[i])
  {
    if texts != [] {
      EventsOfSpec(role, texts[..|texts| - 1]);
    }
  }

  /** Events that carry the fragments in order, under the role, are the stage's events. */
  lemma EventsOfUnique(role: Role, texts: seq<string>, events: seq<Event>)
    requires |events| == |texts|
    requires forall i :: 0 <= i < |events| ==> events[i] == Event(role.key, role.name, texts[i])
    ensures events == EventsOf(role, texts)
  {
    EventsOfSpec(role, texts);
  }

  function AllEvents(stages: seq<Stage>): seq<Event> {
    if stages == [] then [] else AllEvents(stages[..|stages| - 1]) + StageEvents(stages[|stages| - 1])
  }

  /** Everything the streaming entry point yields: the stages' events, then the simple answer if there is one. */
  function Events(r: Run): seq<Event> {
    AllEvents(r.stages) + (if r.outcome.Simple? then [Event("synthesizer", "Simple Response", r.outcome.answer)] else [])
  }

  /** The position in the pipeline of the stage an event's role key names. */
  function StageNumber(key: string): nat {
    if key == "triage" then 0
    else if key == "interpreter" then 1
    else if key == "researcher" then 2
    else if key == "critic" then 3
    else if key == "creative" then 4
    else 5
  }

  /** A roster's keys number its stages in order. */
  lemma RosterStageNumbers(roles: seq<Role>)
    requires Roster(roles)
    ensures forall k :: 0 <= k < |roles| ==> StageNumber(roles[k].key) == k
  {
    forall k | 0 <= k < |roles| ensures StageNumber(roles[k].key) == k {
      assert roles[k].key == StageKeys[k];
    }
  }

  /** Events come stage by stage: none of a later stage precedes one of an earlier stage. */
  predicate InStageOrder(ev: seq<Event>) {
    forall i, j :: 0 <= i < j < |ev| ==> StageNumber(ev[i].role) <= StageNumber(ev[j].role)
  }

  predicate WithinStages(ev: seq<Event>, n: nat) {
    forall i :: 0 <= i < |ev| ==> StageNumber(ev[i].role) < n
  }

  lemma {:induction false} AllEventsOrdered(stages: seq<Stage>)
    requires forall k :: 0 <= k < |stages| ==> StageNumber(stages[k].role.key) == k
    ensures WithinStages(AllEvents(stages), |stages|) && InStageOrder(AllEvents(stages))
  {
    if stages != [] {
      var init := stages[..|stages| - 1];
      AllEventsOrdered(init);
      var before := AllEvents(init);
      var block := StageEvents(stages[|stages| - 1]);
      EventsOfSpec(stages[|stages| - 1].role, stages[|stages| - 1].step.relayed);
      var ev := before + block;
      assert AllEvents(stages) == ev;
      assert forall i :: 0 <= i < |block| ==> StageNumber(block[i].role) == |stages| - 1;
      forall i | 0 <= i < |ev| ensures StageNumber(ev[i].role) < |stages| {
        if i >= |before| { assert ev[i] == block[i - |before|]; } else { assert ev[i] == before[i]; }
      }
      forall i, j | 0 <= i < j < |ev| ensures StageNumber(ev[i].role) <= StageNumber(ev[j].role) {
        if j >= |before| {
          assert ev[j] == block[j - |before|];
          if i >= |before| { assert ev[i] == block[i - |before|]; } else { assert ev[i] == before[i]; }
        } else {
          assert ev[i] == before[i] && ev[j] == before[j];
        }
      }
    }
  }

  /**
   * Events come out stage by stage: every event of a stage precedes every
   * event of a later stage, and the simple answer comes last.
   */
  lemma EventsInStageOrder(run: Runner, roles: seq<Role>, base: nat, q: string, ctx: string)
    requires Roster(roles)
    ensures InStageOrder(Events(Orchestrate(run, roles, base, q, ctx)))
  {
    var r := Orchestrate(run, roles, base, q, ctx);
    OrchestrateRoles(run, roles, base, q, ctx);
    RosterStageNumbers(roles);
    AllEventsOrdered(r.stages);
    var ev := Events(r);
    var before := AllEvents(r.stages);
    if r.outcome.Simple? {
      forall i, j | 0 <= i < j < |ev| ensures StageNumber(ev[i].role) <= StageNumber(ev[j].role) {
        assert ev[i] == before[i];
        if j == |before| { assert StageNumber(ev[j].role) == 5; } else { assert ev[j] == before[j]; }
      }
    } else {
      assert ev == before;
    }
  }

  /** The events of one stage spell out its text. */
  predicate Relaying(s: Stage) {
    Ok(s) ==> Out(s) == Concat(s.step.relayed)
  }

  lemma StreamedStageRelaysItsText(o: Oracle, so: StreamOracle, n: nat, parameters: Option<Overrides>, w: Wording,
                                   base: nat, role: Role, brief: Brief, prior: seq<Stage>)
    ensures Relaying(Invoke(StreamRunner(o, so, n, parameters, w), base, role, brief, prior))
  {
    var p := StageOverrides(role, parameters);
    StreamStepRelaysItsText(o, so, n, p, base + |Requests(prior)|, role, Render(w, brief));
  }

  /** In a streamed run the events of every successful stage concatenate to that stage's text. */
  lemma StreamedStagesRelayTheirText(o: Oracle, so: StreamOracle, n: nat, parameters: Option<Overrides>, w: Wording,
                                     roles: seq<Role>, base: nat, q: string, ctx: string)
    requires |roles| == 6
    ensures var st := Orchestrate(StreamRunner(o, so, n, parameters, w), roles, base, q, ctx).stages;
      forall k :: 0 <= k < |st| ==> Relaying(st[k])
  {
    var run := StreamRunner(o, so, n, parameters, w);
    var st := Orchestrate(run, roles, base, q, ctx).stages;
    OrchestrateSequential(run, roles, base, q, ctx);
    forall k | 0 <= k < |st| ensures Relaying(st[k]) {
      StreamedStageRelaysItsText(o, so, n, parameters, w, base, st[k].role, st[k].brief, st[..k]);
    }
  }

  // ---------------------------------------------------------------------------
  // The detailed result

  datatype Detail = Flag(value: bool) | Agent(name: string, response: string)

  /** The runs `Details` describes: the stages an outcome needs succeeded. */
  predicate Shaped(r: Run) {
    && |r.stages| >= 1
    && (r.outcome.Simple? ==> Ok(r.stages[0]))
    && (r.outcome.Completed? ==> |r.stages| == 6 && AllOk(r.stages))
  }

  /**
   * `process_query_with_details`: the simple flag, every stage's output under
   * its role key with its display name, and the answer under "synthesizer";
   * a failure propagates instead.
   */
  function Details(r: Run): Result<map<string, Detail>, Failure>
    requires Shaped(r)
  {
    match r.outcome
    case Aborted(e) => Failure(e)
    case Simple(a) =>
      Success(map["is_simple_query" := Flag(true),
                  "synthesizer" := Agent("Information Synthesizer", a),
                  "triage" := Agent("Query Triage", Out(r.stages[0]))])
    case Completed(f) =>
      Success(map["is_simple_query" := Flag(false),
                  "synthesizer" := Agent("Information Synthesizer", f),
                  "triage" := Agent("Query Triage", Out(r.stages[0])),
                  "interpreter" := Agent("Query Interpreter", Out(r.stages[1])),
                  "researcher" := Agent("Research Specialist", Out(r.stages[2])),
                  "critic" := Agent("Critical Analyzer", Out(r.stages[3])),
                  "creative" := Agent("Creative Explorer", Out(r.stages[4]))])
  }

  lemma OrchestrateShaped(run: Runner, roles: seq<Role>, base: nat, q: string, ctx: string)
    requires |roles| == 6
    ensures Shaped(Orchestrate(run, roles, base, q, ctx))
  {
    var r := Orchestrate(run, roles, base, q, ctx);
    OrchestrateOutcome(run, roles, base, q, ctx);
    if r.outcome.Completed? {
      forall k | 0 <= k < 6 ensures Ok(r.stages[k]) {
        if k < 5 { assert r.stages[..5][k] == r.stages[k]; }
      }
    }
  }

  /**
   * The details of a simple run: the flag, the triage output under the triage
   * role's display name and the answer under the synthesizer's, nothing else.
   */
  lemma DetailsOfSimple(r: Run, roles: seq<Role>)
    requires Roster(roles) && Shaped(r) && r.outcome.Simple? && r.stages[0].role == roles[0]
    ensures Details(r).Success?
    ensures var m := Details(r).value;
      && m.Keys == {"is_simple_query", "synthesizer", "triage"}
      && m["is_simple_query"] == Flag(true)
      && m["triage"] == Agent(r.stages[0].role.name, Out(r.stages[0]))
      && m["synthesizer"] == Agent(roles[5].name, r.outcome.answer)
  {
    assert roles[0].name == StageNames[0] && roles[5].name == StageNames[5];
  }

  /** Every intermediate stage of a completed run appears under its role key and display name. */
  predicate StagesListed(r: Run, m: map<string, Detail>)
    requires Shaped(r) && r.outcome.Completed?
  {
    forall k :: 1 <= k < 5 ==>
      r.stages[k].role.key in m && m[r.stages[k].role.key] == Agent(r.stages[k].role.name, Out(r.stages[k]))
  }

  /** The seven detail keys are distinct. */
  lemma SevenKeys(m: map<string, Detail>)
    requires m.Keys == {"is_simple_query", "synthesizer", "triage", "interpreter", "researcher", "critic", "creative"}
    ensures |m.Keys| == 7
  {
    var ks: set<string> := {"is_simple_query", "synthesizer", "triage", "interpreter", "researcher", "critic"};
    var ks5: set<string> := {"is_simple_query", "synthesizer", "triage", "interpreter", "researcher"};
    var ks4: set<string> := {"is_simple_query", "synthesizer", "triage", "interpreter"};
    var ks3: set<string> := {"is_simple_query", "synthesizer", "triage"};
    var ks2: set<string> := {"is_simple_query", "synthesizer"};
    assert |ks2| == 2;
    assert |ks3| == 3 by { assert ks3 == ks2 + {"triage"} && "triage" !in ks2; }
    assert |ks4| == 4 by { assert ks4 == ks3 + {"interpreter"} && "interpreter" !in ks3; }
    assert |ks5| == 5 by { assert ks5 == ks4 + {"researcher"} && "researcher" !in ks4; }
    assert |ks| == 6 by { assert ks == ks5 + {"critic"} && "critic" !in ks5; }
    assert m.Keys == ks + {"creative"} && "creative" !in ks;
  }

  /** The details of a completed run: seven entries, one per stage plus the flag. */
  lemma DetailsOfCompleted(r: Run, roles: seq<Role>)
    requires Roster(roles) && Shaped(r) && r.outcome.Completed?
    requires forall k :: 0 <= k < 6 ==> r.stages[k].role == roles[k]
    ensures Details(r).Success?
    ensures var m := Details(r).value;
      && |m.Keys| == 7
      && m["is_simple_query"] == Flag(false)
      && m["triage"] == Agent(r.stages[0].role.name, Out(r.stages[0]))
      && m["synthesizer"] == Agent(r.stages[5].role.name, r.outcome.final)
      && StagesListed(r, m)
  {
    var m := Details(r).value;
    forall k | 0 <= k < 6 ensures r.stages[k].role.key == StageKeys[k] && r.stages[k].role.name == StageNames[k] {
      assert r.stages[k].role == roles[k];
    }
    SevenKeys(m);
  }

  /**
   * The details exist exactly when the run does not abort. They hold the
   * triage output and whether it was simple; the answer under "synthesizer";
   * and, on the full path, every intermediate stage's output under its role
   * key and display name.
   */
  lemma DetailsSpec(run: Runner, roles: seq<Role>, base: nat, q: string, ctx: string)
    requires Roster(roles)
    ensures var r := Orchestrate(run, roles, base, q, ctx);
      && Shaped(r)
      && (Details(r).Success? <==> !r.outcome.Aborted?)
      && (Details(r).Failure? ==> Details(r).error == r.outcome.failure)
      && (Details(r).Success? ==>
            var m := Details(r).value;
            && m["triage"] == Agent(r.stages[0].role.name, Out(r.stages[0]))
            && m["is_simple_query"] == Flag(r.outcome.Simple?)
            && m["synthesizer"] == Agent(roles[5].name, ResultOf(r).value)
            && (r.outcome.Simple? ==> m.Keys == {"is_simple_query", "synthesizer", "triage"})
            && (r.outcome.Completed? ==> |m.Keys| == 7 && StagesListed(r, m)))
  {
    var r := Orchestrate(run, roles, base, q, ctx);
    OrchestrateShaped(run, roles, base, q, ctx);
    match r.outcome {
      case Aborted(_) =>
      case Simple(_) =>
        OrchestrateRoles(run, roles, base, q, ctx);
        DetailsOfSimple(r, roles);
      case Completed(_) =>
        OrchestrateRoles(run, roles, base, q, ctx);
        DetailsOfCompleted(r, roles);
    }
  }
}
