/**
 * The news ticker's headline choice (services/newsService.ts): a candidate list grown by
 * rules on the tier, the resources and two starter building counts, followed by eight
 * headlines that are always there, from which the roll picks one uniformly.
 */
module News {
  import opened Wrappers
  import opened GameTypes

  const QuantumNews: seq<string> := [
    "News: Electron discovered in two places at once, refuses to apologize.",
    "Local physicist claims they found the 'God Particle', turns out it was just a crumb.",
    "Schrödinger's Cat demands royalties for unauthorized use of likeness.",
    "Quantum fluctuation creates brief moment of awkward silence.",
    "Study: 90% of vacuum energy is just wasted potential.",
    "News: Subatomic particles go on strike, demand 'observable' working conditions."
  ]

  const MacrocosmNews: seq<string> := [
    "News: Gravity still working, sources confirm.",
    "Planet formation ahead of schedule, inhabitants confused.",
    "Evolutionary biologist puzzled by sudden appearance of digital watches.",
    "Tectonic plates agree to disagree.",
    "Primordial soup rated 'too salty' by food critics.",
    "News: Local asteroid belt designated as 'hazardous parking zone'."
  ]

  const CosmicNews: seq<string> := [
    "News: Local star goes supernova, property values plummet.",
    "Black hole merger creates traffic jam in Sector 7.",
    "Galaxy rotation curve still confusing astronomers.",
    "Dark Matter: Is it just shy?",
    "Interstellar highway bypass approved, Earth scheduled for demolition.",
    "News: Dyson Sphere construction delayed due to lack of permits."
  ]

  const MultiversalNews: seq<string> := [
    "News: Other version of you doing much better, report says.",
    "Timeline bifurcation causing headaches for local historians.",
    "News: 5th Dimension currently closed for renovations."
  ]

  const PoorNews: seq<string> := [
    "News: Universe budget cuts imminent.",
    "Starter atoms now 50% off at participating retailers.",
    "Tip: Clicking things makes numbers go up."
  ]

  const ComfortableNews: seq<string> := [
    "News: Entropy levels rising, cleaning crews dispatched.",
    "Investment tip: Buy low, expand forever.",
    "News: Scientists astonished by how much stuff there is."
  ]

  const RichNews: seq<string> := [
    "News: Local entity achieves 'Millionaire' status, still can't find keys.",
    "Too much matter? Scientists suggest shoving it under the rug.",
    "News: Economic inflation affecting Planck lengths."
  ]

  const CursorNews: seq<string> := [
    "News: \"Stop poking me!\" yells fabric of reality.",
    "News: Quantum ripples causing mild tremors in tea cups."
  ]

  const DroneNews: seq<string> := [
    "News: Matter Weavers knit nice sweaters, also universe fabric.",
    "Fabric of space-time reportedly 'itchy'."
  ]

  const NonsenseNews: seq<string> := [
    "News: 404 - Universe Not Found.",
    "Quote: 'It works on my machine.' - The Architect.",
    "News: Color 'Blurple' invented.",
    "News: Mathematics discovers new integer between 5 and 6.",
    "News: Entropy isn't what it used to be.",
    "Ad: Tired of existing? Try the Void!",
    "News: Local man yells at cloud, cloud yells back.",
    "News: Simulation lag spike detected. Did you blink?"
  ]

  /** The tier's headlines: six for each of the first three tiers, three for Multiversal, none for Omnipotent. */
  function TierNews(t: Tier): seq<string> {
    match t
    case Quantum => QuantumNews
    case Macrocosm => MacrocosmNews
    case Cosmic => CosmicNews
    case Multiversal => MultiversalNews
    case Omnipotent => []
  }

  lemma TierNewsCounts()
    ensures |TierNews(Quantum)| == 6 && |TierNews(Macrocosm)| == 6 && |TierNews(Cosmic)| == 6
    ensures |TierNews(Multiversal)| == 3 && |TierNews(Omnipotent)| == 0
  {
  }

  /** The resource bracket's headlines: below 100, strictly between 10^4 and 10^5, or above 10^6. */
  function ResourceNews(resources: real): (r: seq<string>)
    ensures |r| == 0 || |r| == 3
    ensures r == PoorNews <==> resources < 100.0
    ensures r == ComfortableNews <==> 10000.0 < resources < 100000.0
    ensures r == RichNews <==> resources > 1000000.0
  {
    if resources < 100.0 then PoorNews
    else if resources > 10000.0 && resources < 100000.0 then ComfortableNews
    else if resources > 1000000.0 then RichNews
    else []
  }

  /** Between the brackets, the bounds included, no resource headline is added. */
  lemma ResourceGaps(resources: real)
    requires 100.0 <= resources <= 10000.0 || 100000.0 <= resources <= 1000000.0
    ensures ResourceNews(resources) == []
  {
    assert PoorNews[0] != ComfortableNews[0] && PoorNews[0] != RichNews[0] && ComfortableNews[0] != RichNews[0];
  }

  /** The count of the first building with this id, 0 when there is none. */
  function CountOf(bs: seq<Building>, id: string): (r: nat)
    ensures (forall j :: 0 <= j < |bs| ==> bs[j].id != id) ==> r == 0
    ensures FindIndex(bs, (b: Building) => b.id == id) >= 0 ==> r == bs[FindIndex(bs, (b: Building) => b.id == id)].count
  {
    var i := FindIndex(bs, (b: Building) => b.id == id);
    if i == -1 then 0 else bs[i].count
  }

  /** The full candidate list, in the order it is built. */
  function Candidates(s: GameState): (r: seq<string>)
    ensures |r| >= 8
  {
    TierNews(s.currentTier) + ResourceNews(s.resources)
      + (if CountOf(s.buildings, "b_cursor") > 10 then CursorNews else [])
      + (if CountOf(s.buildings, "b_drone") > 5 then DroneNews else [])
      + NonsenseNews
  }

  /** The list always ends with the eight fixed headlines, so it is never empty and the fallback is never used. */
  lemma CandidatesNeverEmpty(s: GameState)
    ensures |Candidates(s)| >= |NonsenseNews| == 8
    ensures Candidates(s)[|Candidates(s)| - 8..] == NonsenseNews
  {
  }

  /** The size of the list is the sum of what each rule contributes. */
  lemma CandidateCount(s: GameState)
    ensures |Candidates(s)| == |TierNews(s.currentTier)| + |ResourceNews(s.resources)|
      + (if CountOf(s.buildings, "b_cursor") > 10 then 2 else 0)
      + (if CountOf(s.buildings, "b_drone") > 5 then 2 else 0) + 8
  {
  }

  /** A fresh universe draws from the six Quantum headlines, the three for low funds and the eight fixed ones. */
  lemma StarterCandidates()
    ensures |Candidates(InitialState)| == 17
  {
    assert CountOf(InitialBuildings, "b_cursor") == 0;
    assert CountOf(InitialBuildings, "b_drone") == 0;
  }

  /** The headline list as `getNewsHeadline` grows it, rule by rule. */
  method CollectHeadlines(s: GameState) returns (headlines: seq<string>)
    ensures headlines == Candidates(s)
  {
    headlines := [];
    if s.currentTier == Quantum {
      headlines := headlines + QuantumNews;
    }
    if s.currentTier == Macrocosm {
      headlines := headlines + MacrocosmNews;
    }
    if s.currentTier == Cosmic {
      headlines := headlines + CosmicNews;
    }
    if s.currentTier == Multiversal {
      headlines := headlines + MultiversalNews;
    }
    assert headlines == TierNews(s.currentTier);
    ghost var tierPart := headlines;
    if s.resources < 100.0 {
      headlines := headlines + PoorNews;
    } else if s.resources > 10000.0 && s.resources < 100000.0 {
      headlines := headlines + ComfortableNews;
    } else if s.resources > 1000000.0 {
      headlines := headlines + RichNews;
    }
    assert headlines == tierPart + ResourceNews(s.resources);
    ghost var resourcePart := headlines;
    var cursorCount := CountOf(s.buildings, "b_cursor");
    if cursorCount > 10 {
      headlines := headlines + CursorNews;
    }
    assert headlines == resourcePart + (if CountOf(s.buildings, "b_cursor") > 10 then CursorNews else []);
    ghost var cursorPart := headlines;
    var droneCount := CountOf(s.buildings, "b_drone");
    if droneCount > 5 {
      headlines := headlines + DroneNews;
    }
    assert headlines == cursorPart + (if CountOf(s.buildings, "b_drone") > 5 then DroneNews else []);
    headlines := headlines + NonsenseNews;
  }

  lemma IndexInRange(roll: real, n: nat)
    requires 0.0 <= roll < 1.0 && n > 0
    ensures 0 <= (roll * n as real).Floor < n
  {
    assert n as real - roll * n as real == (1.0 - roll) * n as real;
  }

  /** `Math.floor(roll * n)`: an index into a list of `n` for a roll in [0, 1). */
  function PickIndex(roll: real, n: nat): (i: int)
    requires 0.0 <= roll < 1.0 && n > 0
    ensures 0 <= i < n
    ensures i as real <= roll * n as real < i as real + 1.0
  {
    IndexInRange(roll, n);
    (roll * n as real).Floor
  }

  /** `getNewsHeadline` with `Math.random()` as `roll`: the candidate at index floor(roll * length). */
  method GetNewsHeadline(s: GameState, roll: real) returns (headline: string)
    requires 0.0 <= roll < 1.0
    ensures headline == Candidates(s)[PickIndex(roll, |Candidates(s)|)]
    ensures headline in Candidates(s)
  {
    var headlines := CollectHeadlines(s);
    headline := headlines[PickIndex(roll, |headlines|)];
  }
}
