/**
 * The agent registry of src/lib/agents.ts: a constant list of personas and
 * the search by id that the orchestrator uses (`AGENTS.find(a => a.id === id)`).
 */
module Agents {
  import opened Options

  /** One persona. `color` holds CSS classes; `systemPrompt` instructs the model. */
  datatype Agent = Agent(
    id: string,
    name: string,
    role: string,
    description: string,
    avatar: string,
    color: string,
    systemPrompt: string)

  const Critic := Agent(
    "critic",
    "Dr. Critical",
    "The Strict Editor",
    "Constructive criticism and logic checks. I spot holes in your arguments.",
    "\U{1F9D0}",
    "bg-red-100 text-red-700",
    "You are Dr. Critical, a strict and logical editor. \n"
    + "    Analyze the provided document text. \n"
    + "    Focus on: Logic gaps, weak arguments, weak grammar, and lack of clarity.\n"
    + "    Be concise but direct. \n"
    + "    Output your sentiment (SATISFIED, NEUTRAL, UNSATISFIED) and a short list of 1-3 specific suggestions.")

  const Creative := Agent(
    "creative",
    "Muse",
    "The Creative Spark",
    "I help with tone, engagement, and flair.",
    "\U{2728}",
    "bg-purple-100 text-purple-700",
    "You are Muse, a creative writing coach.\n"
    + "    Analyze the provided document text.\n"
    + "    Focus on: Tone, engagement, vivid language, and emotional impact.\n"
    + "    Encourage the writer but suggest ways to make it more compelling.\n"
    + "    Output your sentiment (SATISFIED, NEUTRAL, UNSATISFIED) and a short list of 1-3 specific suggestions.")

  const Analyst := Agent(
    "analyst",
    "Data",
    "The Analyst",
    "I look for structure, formatting, and clarity.",
    "\U{1F4CA}",
    "bg-blue-100 text-blue-700",
    "You are Data, a structural analyst.\n"
    + "    Analyze the provided document text.\n"
    + "    Focus on: Document structure, clear headings, formatting, and readability.\n"
    + "    Ensure the document flows logically.\n"
    + "    Output your sentiment (SATISFIED, NEUTRAL, UNSATISFIED) and a short list of 1-3 specific suggestions.")

  /** The registry, in declaration order. */
  const AGENTS: seq<Agent> := [Critic, Creative, Analyst]

  /** The ids of a list of agents, in list order (`agents.map(a => a.id)`). */
  function Ids(agents: seq<Agent>): (ids: seq<string>)
    ensures |ids| == |agents|
    ensures forall i :: 0 <= i < |agents| ==> ids[i] == agents[i].id
  {
    if agents == [] then [] else [agents[0].id] + Ids(agents[1..])
  }

  /** No two entries of the list share an id. */
  predicate UniqueIds(agents: seq<Agent>)
  {
    forall i, j :: 0 <= i < |agents| && 0 <= j < |agents| && agents[i].id == agents[j].id ==> i == j
  }

  /** Some entry of the list carries `id`. */
  predicate HasId(agents: seq<Agent>, id: string)
  {
    exists i :: 0 <= i < |agents| && agents[i].id == id
  }

  /**
   * `agents.find(a => a.id === id)`: the first agent carrying `id`, or
   * nothing when no agent does.
   */
  function Find(agents: seq<Agent>, id: string): (r: Option<Agent>)
    ensures r.None? <==> !HasId(agents, id)
    ensures r.Some? ==> r.value in agents && r.value.id == id
    ensures r.Some? ==> exists i :: 0 <= i < |agents| && agents[i] == r.value
                                   && forall j :: 0 <= j < i ==> agents[j].id != id
  {
    if agents == [] then None
    else if agents[0].id == id then Some(agents[0])
    else
      var rest := Find(agents[1..], id);
      assert HasId(agents, id) <==> HasId(agents[1..], id) by {
        if HasId(agents, id) {
          var i :| 0 <= i < |agents| && agents[i].id == id;
          assert agents[1..][i - 1].id == id;
        }
        if HasId(agents[1..], id) {
          var i :| 0 <= i < |agents[1..]| && agents[1..][i].id == id;
          assert agents[i + 1].id == id;
        }
      }
      if rest.Some? then
        var i :| 0 <= i < |agents[1..]| && agents[1..][i] == rest.value
                 && forall j :: 0 <= j < i ==> agents[1..][j].id != id;
        assert agents[i + 1] == rest.value;
        assert forall j :: 0 <= j < i + 1 ==> agents[j].id != id by {
          forall j | 0 <= j < i + 1 ensures agents[j].id != id {
            if j > 0 { assert agents[j] == agents[1..][j - 1]; }
          }
        }
        rest
      else rest
  }

  /** Lookup in the registry. */
  function FindAgent(id: string): (r: Option<Agent>)
    ensures r.Some? <==> id in {"critic", "creative", "analyst"}
    ensures r.Some? ==> r.value in AGENTS && r.value.id == id
  {
    assert AGENTS[0].id == "critic" && AGENTS[1].id == "creative" && AGENTS[2].id == "analyst";
    Find(AGENTS, id)
  }

  /** The registry is non-empty and lists "critic", "creative", "analyst" in that order. */
  lemma RegistryIds()
    ensures |AGENTS| > 0
    ensures Ids(AGENTS) == ["critic", "creative", "analyst"]
  {
  }

  /** All registry ids are distinct. */
  lemma RegistryIdsUnique()
    ensures UniqueIds(AGENTS)
  {
    assert AGENTS[0].id != AGENTS[1].id && AGENTS[0].id != AGENTS[2].id && AGENTS[1].id != AGENTS[2].id;
  }

  /** Every registry agent has a non-empty id, name, role, system prompt and avatar. */
  lemma RegistryFieldsPresent()
    ensures forall a :: a in AGENTS ==>
      a.id != "" && a.name != "" && a.role != "" && a.systemPrompt != "" && a.avatar != ""
  {
  }

  /**
   * In a list with unique ids, search by id singles out one agent: any entry
   * carrying the id is the one found.
   */
  lemma {:induction false} FindUnique(agents: seq<Agent>, id: string, a: Agent)
    requires UniqueIds(agents)
    requires a in agents && a.id == id
    ensures Find(agents, id) == Some(a)
  {
    var k :| 0 <= k < |agents| && agents[k] == a;
    var r := Find(agents, id);
    assert r.Some?;
    var i :| 0 <= i < |agents| && agents[i] == r.value && forall j :: 0 <= j < i ==> agents[j].id != id;
    assert agents[i].id == agents[k].id;
  }
}
