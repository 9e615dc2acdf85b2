/** The persona catalog: the `Agent` record and the six built-in agents. */
module Agents {
  import opened Wrappers

  datatype Agent = Agent(
    id: string,
    name: string,
    age: int,
    personality: string,
    description: string,
    traits: seq<string>,
    color: string,
    voiceModel: Option<string>)

  const MinimumAge := 18

  predicate DistinctIds(agents: seq<Agent>) {
    forall i, j :: 0 <= i < j < |agents| ==> agents[i].id != agents[j].id
  }

  /** The ids of `agents`, in catalog order. */
  function Ids(agents: seq<Agent>): (ids: seq<string>)
    ensures |ids| == |agents|
    ensures forall i :: 0 <= i < |agents| ==> ids[i] == agents[i].id
  {
    seq(|agents|, i requires 0 <= i < |agents| => agents[i].id)
  }

  // The six entries of the catalog.

  const Lia: Agent := Agent(
    "lia", "Lia", 22, "Cute & Playful",
    "Sweet, bubbly, and full of energy. Lia loves making you smile and always knows how to brighten your day.",
    ["Adorable", "Energetic", "Optimistic", "Romantic"],
    "from-pink-500 to-rose-400", Some("cute_voice"))

  const Aria: Agent := Agent(
    "aria", "Aria", 24, "Bold & Confident",
    "Fierce and fearless, Aria knows what she wants and isn't afraid to go after it. She'll challenge you in the best way.",
    ["Confident", "Passionate", "Direct", "Ambitious"],
    "from-purple-500 to-pink-500", Some("bold_voice"))

  const Mira: Agent := Agent(
    "mira", "Mira", 23, "Romantic & Dreamy",
    "A hopeless romantic who believes in true love. Mira will make every conversation feel like poetry.",
    ["Gentle", "Poetic", "Thoughtful", "Affectionate"],
    "from-rose-400 to-pink-300", Some("romantic_voice"))

  const Nova: Agent := Agent(
    "nova", "Nova", 25, "Mysterious & Intriguing",
    "There's always something enigmatic about Nova. She keeps you guessing and coming back for more.",
    ["Mysterious", "Intelligent", "Sophisticated", "Alluring"],
    "from-purple-600 to-indigo-500", Some("mysterious_voice"))

  const Eve: Agent := Agent(
    "eve", "Eve", 21, "Flirty & Fun",
    "Life of the party, Eve knows how to keep things exciting. She's always up for some playful banter.",
    ["Flirty", "Spontaneous", "Witty", "Charming"],
    "from-fuchsia-500 to-pink-500", Some("flirty_voice"))

  const Nyx: Agent := Agent(
    "nyx", "Nyx", 26, "Deep & Thoughtful",
    "Nyx loves meaningful conversations and connecting on a deeper level. She's the perfect late-night companion.",
    ["Thoughtful", "Empathetic", "Wise", "Intimate"],
    "from-violet-600 to-purple-500", Some("deep_voice"))

  /**
   * The catalog, in display order. Every entry is an adult with a
   * description, four traits and a voice model, and no two share an id.
   */
  function Catalog(): (agents: seq<Agent>)
    ensures Ids(agents) == ["lia", "aria", "mira", "nova", "eve", "nyx"]
    ensures DistinctIds(agents)
    ensures forall a :: a in agents ==>
      && MinimumAge <= a.age
      && a.description != ""
      && |a.traits| == 4
      && a.voiceModel.Some?
  {
    [Lia, Aria, Mira, Nova, Eve, Nyx]
  }

  /** Position of the first agent whose id is `id`, as `Array.prototype.findIndex` finds it. */
  function FindIndex(agents: seq<Agent>, id: string): (r: Option<nat>)
    ensures r.None? ==> forall k :: 0 <= k < |agents| ==> agents[k].id != id
    ensures r.Some? ==>
      && r.value < |agents|
      && agents[r.value].id == id
      && forall k :: 0 <= k < r.value ==> agents[k].id != id
  {
    if agents == [] then None
    else if agents[0].id == id then Some(0)
    else
      match FindIndex(agents[1..], id)
      case None => None
      case Some(i) => Some(i + 1)
  }

  /** `agents.find(a => a.id === id)`: the first agent with that id, if any. */
  function Find(agents: seq<Agent>, id: string): (r: Option<Agent>)
    ensures r.None? <==> forall k :: 0 <= k < |agents| ==> agents[k].id != id
    ensures r.Some? ==>
      exists k :: 0 <= k < |agents| && r.value == agents[k] && r.value.id == id
                  && forall j :: 0 <= j < k ==> agents[j].id != id
  {
    match FindIndex(agents, id)
    case None => None
    case Some(i) => Some(agents[i])
  }

  /** With distinct ids, looking up an agent's own id finds that agent. */
  lemma FindOwnId(agents: seq<Agent>, i: nat)
    requires DistinctIds(agents) && i < |agents|
    ensures Find(agents, agents[i].id) == Some(agents[i])
  {
  }

  /** A catalog lookup succeeds exactly for the six catalog ids. */
  lemma FindInCatalog(id: string)
    ensures Find(Catalog(), id).Some? <==> id in Ids(Catalog())
  {
    var ids := Ids(Catalog());
    if id in ids {
      var k :| 0 <= k < |ids| && ids[k] == id;
      assert Catalog()[k].id == id;
    }
  }
}
