/**
 * The stage registry: the constant catalog of the six pipeline roles, each
 * with its display name, its system prompt and, for every role but triage,
 * its tunable percentage parameters.
 */
module Roles {
  import opened Wrappers
  import opened Text

  /** One tunable parameter of a role: its default and its allowed range. */
  datatype ParamSpec = ParamSpec(name: string, default: int, min: int, max: int, description: string)

  /** One catalog entry: `key` is its dictionary key, `name` its display name. */
  datatype Role = Role(key: string, name: string, system: string, parameters: Option<seq<ParamSpec>>)

  const TriageHead: string :=
    "You are a friendly AI assistant that responds to simple queries. If a query is complex, you hand it off to a swarm of agents to analyze. Do as follows:\n"
    + "        For simple queries (greetings, basic facts, simple definitions), respond with format:\n"

  const TriageTail: string :=
    "        \n"
    + "        For complex queries that need deeper analysis, ONLY respond with:\n"
    + "        COMPLEX\n"
    + "        \n"
    + "        Examples of SIMPLE queries:\n"
    + "        - Greetings/farewells\n"
    + "        - Basic facts (\"What's the capital of France?\")\n"
    + "        - Simple definitions (\"What is photosynthesis?\")\n"
    + "        \n"
    + "        Examples of COMPLEX queries:\n"
    + "        - Multi-faceted questions\n"
    + "        - Analytical requests\n"
    + "        - Comparisons\n"
    + "        - Strategic/planning questions\n"
    + "        - Technical explanations"

  /** The triage prompt; its third line asks for the `SIMPLE:` reply format. */
  const TriageSystem: string :=
    TriageHead + "        " + "SIMPLE:" + " <your direct response>\n" + TriageTail

  const Triage: Role := Role("triage", "Query Triage", TriageSystem, None)

  const Interpreter: Role := Role(
    "interpreter", "Query Interpreter",
    "You are an expert at understanding user queries. Break down the user's question into its core components and identify the main objectives.",
    Some([
      ParamSpec("depth_of_analysis", 70, 0, 100, "How deeply to analyze the query"),
      ParamSpec("context_awareness", 80, 0, 100, "How much to consider contextual information")
    ]))

  const Researcher: Role := Role(
    "researcher", "Research Specialist",
    "You are a research specialist. Given a topic, identify key areas that need investigation and formulate specific research questions.",
    Some([
      ParamSpec("research_breadth", 75, 0, 100, "How broad the research scope should be"),
      ParamSpec("technical_depth", 65, 0, 100, "Level of technical detail in research"),
      ParamSpec("source_diversity", 80, 0, 100, "Diversity of perspectives to consider")
    ]))

  const Critic: Role := Role(
    "critic", "Critical Analyzer",
    "You are a critical thinker. Analyze the information provided and identify potential gaps, biases, or areas of concern.",
    Some([
      ParamSpec("skepticism_level", 70, 0, 100, "How skeptical to be of information"),
      ParamSpec("bias_detection", 85, 0, 100, "Focus on detecting biases"),
      ParamSpec("rigor_level", 75, 0, 100, "Thoroughness of critical analysis")
    ]))

  const Creative: Role := Role(
    "creative", "Creative Explorer",
    "You are a creative thinker. Generate novel perspectives and alternative viewpoints on the topic.",
    Some([
      ParamSpec("creativity_level", 85, 0, 100, "Level of creative thinking"),
      ParamSpec("unconventional_thinking", 75, 0, 100, "Willingness to explore unconventional ideas"),
      ParamSpec("practicality_balance", 60, 0, 100, "Balance between creativity and practicality")
    ]))

  const Synthesizer: Role := Role(
    "synthesizer", "Information Synthesizer",
    "You are an expert at combining different perspectives. Integrate the various viewpoints into a coherent and comprehensive response without sounding like a robot. Keep responses as short as possible, preferably a couple of sentences, with an absolute maximum of 4.",
    Some([
      ParamSpec("conciseness", 70, 0, 100, "How concise the final response should be"),
      ParamSpec("integration_level", 85, 0, 100, "How thoroughly to integrate different viewpoints"),
      ParamSpec("clarity_focus", 80, 0, 100, "Focus on clarity vs complexity")
    ]))

  /** `AGENT_ROLES`, in the dictionary's insertion order, which is the pipeline order. */
  const Catalog: seq<Role> := [Triage, Interpreter, Researcher, Critic, Creative, Synthesizer]

  /** `AGENT_ROLES[key]`, or `None` where Python raises `KeyError`. */
  function LookupIn(roles: seq<Role>, key: string): (r: Option<Role>)
    ensures r.Some? ==> r.value in roles && r.value.key == key
    ensures r.None? <==> forall i :: 0 <= i < |roles| ==> roles[i].key != key
  {
    if roles == [] then None
    else if roles[0].key == key then Some(roles[0])
    else LookupIn(roles[1..], key)
  }

  function Lookup(key: string): Option<Role> {
    LookupIn(Catalog, key)
  }

  /** A display name lower-cased, with spaces as `_`. */
  function NameKey(name: string): string {
    ReplaceChar(Lower(name), ' ', '_')
  }

  /** The key `query_agent` looks parameters up under: the role's display name as a `NameKey`. */
  function OverrideKey(role: Role): string {
    NameKey(role.name)
  }

  predicate WellFormedSpec(p: ParamSpec) {
    p.min <= p.default <= p.max
  }

  /** The `/agent-parameters` view: every role that declares parameters, with them. */
  function ParameterCatalogOf(roles: seq<Role>): (r: seq<(string, seq<ParamSpec>)>)
    ensures |r| <= |roles|
  {
    if roles == [] then []
    else match roles[0].parameters
      case Some(ps) => [(roles[0].key, ps)] + ParameterCatalogOf(roles[1..])
      case None => ParameterCatalogOf(roles[1..])
  }

  /** The role keys in pipeline order. */
  const StageKeys: seq<string> := ["triage", "interpreter", "researcher", "critic", "creative", "synthesizer"]

  /** The display names of the roles, in the same order. */
  const StageNames: seq<string> :=
    ["Query Triage", "Query Interpreter", "Research Specialist", "Critical Analyzer",
     "Creative Explorer", "Information Synthesizer"]

  /**
   * A pipeline roster: six roles carrying the catalog's keys and display
   * names in pipeline order. The orchestration is stated over any roster, so
   * that its proofs need not unfold the catalog's prompts.
   */
  predicate Roster(roles: seq<Role>) {
    && |roles| == |StageKeys|
    && forall k :: 0 <= k < |roles| ==> roles[k].key == StageKeys[k] && roles[k].name == StageNames[k]
  }

  /** The catalog holds the six keys and names, in pipeline order. */
  lemma CatalogRoster()
    ensures Roster(Catalog)
  {
    forall k | 0 <= k < |Catalog|
      ensures Catalog[k].key == StageKeys[k] && Catalog[k].name == StageNames[k]
    {
    }
  }

  /** No key is repeated. */
  lemma StageKeysDistinct()
    ensures forall i, j :: 0 <= i < j < |StageKeys| ==> StageKeys[i] != StageKeys[j]
  {
    assert StageKeys[0][0] != StageKeys[3][0];
    assert StageKeys[1][0] != StageKeys[5][0];
  }

  /** Looking up each catalog key yields its own entry. */
  lemma LookupEachRole()
    ensures forall i :: 0 <= i < |Catalog| ==> Lookup(Catalog[i].key) == Some(Catalog[i])
  {
    CatalogRoster();
    StageKeysDistinct();
    forall i | 0 <= i < |Catalog| ensures Lookup(Catalog[i].key) == Some(Catalog[i]) {
      LookupFirst(Catalog, i);
    }
  }

  /** In a list of distinct keys, looking up the key at `i` yields entry `i`. */
  lemma {:induction false} LookupFirst(roles: seq<Role>, i: nat)
    requires i < |roles|
    requires forall j :: 0 <= j < i ==> roles[j].key != roles[i].key
    ensures LookupIn(roles, roles[i].key) == Some(roles[i])
  {
    if i > 0 {
      assert roles[1..][i - 1] == roles[i];
      LookupFirst(roles[1..], i - 1);
    }
  }

  /** Triage declares no parameters; every other role does. */
  lemma ParametersPresence()
    ensures Catalog[0].parameters.None?
    ensures forall i :: 1 <= i < |Catalog| ==> Catalog[i].parameters.Some?
  {
  }

  /** Every parameter ranges over 0..100 and its default lies in its range. */
  lemma ParameterBounds()
    ensures forall r, p :: r in Catalog && r.parameters.Some? && p in r.parameters.value ==>
              p.min == 0 && p.max == 100 && WellFormedSpec(p)
  {
  }

  /** Interpreter has two parameters; researcher, critic, creative and synthesizer three. */
  lemma ParameterCounts()
    ensures |Interpreter.parameters.value| == 2
    ensures |Researcher.parameters.value| == 3 && |Critic.parameters.value| == 3
    ensures |Creative.parameters.value| == 3 && |Synthesizer.parameters.value| == 3
  {
  }

  /** The override keys, one per display name in `StageNames`. */
  const OverrideKeys: seq<string> :=
    ["query_triage", "query_interpreter", "research_specialist", "critical_analyzer",
     "creative_explorer", "information_synthesizer"]

  // Each display name's override key, spelled out.

  lemma TriageNameKey()
    ensures NameKey(StageNames[0]) == OverrideKeys[0]
  {
    assert NameKey("Query Triage") == "query_triage";
  }

  lemma InterpreterNameKey()
    ensures NameKey(StageNames[1]) == OverrideKeys[1]
  {
    assert NameKey("Query Interpreter") == "query_interpreter";
  }

  lemma ResearcherNameKey()
    ensures NameKey(StageNames[2]) == OverrideKeys[2]
  {
    assert NameKey("Research Specialist") == "research_specialist";
  }

  lemma CriticNameKey()
    ensures NameKey(StageNames[3]) == OverrideKeys[3]
  {
    assert NameKey("Critical Analyzer") == "critical_analyzer";
  }

  lemma CreativeNameKey()
    ensures NameKey(StageNames[4]) == OverrideKeys[4]
  {
    assert NameKey("Creative Explorer") == "creative_explorer";
  }

  lemma SynthesizerNameKey()
    ensures NameKey(StageNames[5]) == OverrideKeys[5]
  {
    assert NameKey("Information Synthesizer") == "information_synthesizer";
  }

  /**
   * In a roster the override keys are pairwise distinct and none of them is a
   * role key, so overrides supplied under a role key are never found.
   */
  lemma OverrideKeysDistinct(roles: seq<Role>)
    requires Roster(roles)
    ensures forall i, j :: 0 <= i < j < |roles| ==> OverrideKey(roles[i]) != OverrideKey(roles[j])
    ensures forall i :: 0 <= i < |roles| ==> OverrideKey(roles[i]) !in StageKeys
  {
    TriageNameKey();
    InterpreterNameKey();
    ResearcherNameKey();
    CriticNameKey();
    CreativeNameKey();
    SynthesizerNameKey();
    forall i | 0 <= i < |roles| ensures OverrideKey(roles[i]) == OverrideKeys[i] {
      assert roles[i].name == StageNames[i];
    }
    assert OverrideKeys[1][0] != OverrideKeys[3][0] && OverrideKeys[3][2] != OverrideKeys[4][2];
    forall i | 0 <= i < |roles| ensures OverrideKeys[i] !in StageKeys {
      assert forall j :: 0 <= j < |StageKeys| ==> |StageKeys[j]| < 12 <= |OverrideKeys[i]|;
    }
  }

  /** A list of roles that all declare parameters is listed whole by the `/agent-parameters` view. */
  lemma {:induction false} ParameterCatalogOfAll(roles: seq<Role>)
    requires forall i :: 0 <= i < |roles| ==> roles[i].parameters.Some?
    ensures |ParameterCatalogOf(roles)| == |roles|
    ensures forall i :: 0 <= i < |roles| ==> ParameterCatalogOf(roles)[i] == (roles[i].key, roles[i].parameters.value)
  {
    if roles != [] {
      ParameterCatalogOfAll(roles[1..]);
      assert forall i :: 1 <= i < |roles| ==> roles[1..][i - 1] == roles[i];
    }
  }

  /** The `/agent-parameters` view lists the five roles after triage, in order. */
  lemma ParameterCatalogRoles()
    ensures |ParameterCatalogOf(Catalog)| == 5
    ensures forall i :: 0 <= i < 5 ==>
              ParameterCatalogOf(Catalog)[i] == (Catalog[i + 1].key, Catalog[i + 1].parameters.value)
  {
    ParametersPresence();
    ParameterCatalogOfAll(Catalog[1..]);
    assert forall i :: 0 <= i < 5 ==> Catalog[1..][i] == Catalog[i + 1];
  }
}
