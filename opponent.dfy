/** The opponent profiler (analyzeOpponent in utils/pokerMath.ts): VPIP and
    PFR, both percentages, choose one of five archetypes by an ordered chain
    of rules; each archetype comes with a fixed description and three
    exploits. The 3-bet percentage is not consulted. */
module Opponent {
  import opened PokerTypes

  /** Plays many hands and rarely raises. */
  predicate FishGuard(vpip: real, pfr: real) { vpip > 40.0 && pfr < 15.0 }

  /** Plays many hands and raises very often. */
  predicate ManiacGuard(vpip: real, pfr: real) { vpip > 35.0 && pfr > 25.0 }

  /** Plays very few hands. */
  predicate NitGuard(vpip: real) { vpip < 15.0 }

  /** Plays a wide but not reckless range, raising most of it. */
  predicate LagGuard(vpip: real, pfr: real) { 25.0 <= vpip <= 35.0 && pfr >= 20.0 }

  const FishDescription: string := "Gioca troppe mani passivamente. Chiama con qualsiasi cosa."
  const FishExploits: seq<string> := ["Value bettate enormi", "MAI bluffare", "Gioca solo mani forti"]
  const ManiacDescription: string := "Aggressivo senza logica. Betta e raisa costantemente."
  const ManiacExploits: seq<string> := ["Lascialo bluffare (trap)", "Chiama (Call down) più leggero", "Aspetta il nuts"]
  const NitDescription: string := "Gioca solo le carte migliori (top 10-15%)."
  const NitExploits: seq<string> := ["Ruba i suoi bui sempre", "Folda se mostra aggressività", "Over-fold al river"]
  const LagDescription: string := "Loose Aggressive. Gioca molte mani in modo aggressivo ma competente."
  const LagExploits: seq<string> := ["4-betta light", "Chiama le C-bet se hai equity", "Attacca i suoi check"]
  const TagDescription: string := "Tight Aggressive. Lo stile standard dei regolari."
  const TagExploits: seq<string> := ["Bilanciamento necessario", "Cerca leak specifici postflop", "Non regaali chips"]

  /** The fixed profile card of each archetype. */
  function ProfileOf(kind: Archetype): (p: PlayerProfile)
    ensures p.kind == kind && |p.exploit| == 3
  {
    match kind
    case FishStation => PlayerProfile(FishStation, FishDescription, FishExploits)
    case Maniac => PlayerProfile(Maniac, ManiacDescription, ManiacExploits)
    case Nit => PlayerProfile(Nit, NitDescription, NitExploits)
    case LAG => PlayerProfile(LAG, LagDescription, LagExploits)
    case TAG => PlayerProfile(TAG, TagDescription, TagExploits)
  }

  /** The profile of an opponent: the first rule that matches wins, TAG is
      the fallback. */
  function AnalyzeOpponent(stats: PlayerStats): (p: PlayerProfile)
    ensures p == ProfileOf(p.kind)
    ensures |p.exploit| == 3
  {
    var vpip, pfr := stats.vpip, stats.pfr;
    if FishGuard(vpip, pfr) then ProfileOf(FishStation)
    else if ManiacGuard(vpip, pfr) then ProfileOf(Maniac)
    else if NitGuard(vpip) then ProfileOf(Nit)
    else if LagGuard(vpip, pfr) then ProfileOf(LAG)
    else ProfileOf(TAG)
  }

  /** No two rules can match the same statistics, so the order of the chain
      does not matter for the four named archetypes. */
  lemma GuardsDisjoint(vpip: real, pfr: real)
    ensures !(FishGuard(vpip, pfr) && ManiacGuard(vpip, pfr))
    ensures !(FishGuard(vpip, pfr) && NitGuard(vpip))
    ensures !(FishGuard(vpip, pfr) && LagGuard(vpip, pfr))
    ensures !(ManiacGuard(vpip, pfr) && NitGuard(vpip))
    ensures !(ManiacGuard(vpip, pfr) && LagGuard(vpip, pfr))
    ensures !(NitGuard(vpip) && LagGuard(vpip, pfr))
  {
  }

  /** Each archetype is chosen exactly when its own rule holds; TAG exactly
      when none does. */
  lemma ArchetypeRules(stats: PlayerStats)
    ensures var k, v, f := AnalyzeOpponent(stats).kind, stats.vpip, stats.pfr;
      (k == FishStation <==> v > 40.0 && f < 15.0) &&
      (k == Maniac <==> v > 35.0 && f > 25.0) &&
      (k == Nit <==> v < 15.0) &&
      (k == LAG <==> 25.0 <= v <= 35.0 && f >= 20.0) &&
      (k == TAG <==> !(FishGuard(v, f) || ManiacGuard(v, f) || NitGuard(v) || LagGuard(v, f)))
  {
    GuardsDisjoint(stats.vpip, stats.pfr);
  }

  /** The 3-bet percentage never changes the profile. */
  lemma ThreeBetIgnored(vpip: real, pfr: real, t1: real, t2: real)
    ensures AnalyzeOpponent(PlayerStats(vpip, pfr, t1)) == AnalyzeOpponent(PlayerStats(vpip, pfr, t2))
  {
  }

  /** Different archetypes show different descriptions, so the description
      identifies the archetype. */
  lemma DescriptionsDistinct(k1: Archetype, k2: Archetype)
    requires k1 != k2
    ensures ProfileOf(k1).description != ProfileOf(k2).description
  {
    var d1, d2 := ProfileOf(k1).description, ProfileOf(k2).description;
    assert d1[0] != d2[0] || d1[1] != d2[1] || |d1| != |d2|;
  }

  lemma ProfileExamples()
    ensures AnalyzeOpponent(PlayerStats(45.0, 10.0, 2.0)).kind == FishStation
    ensures AnalyzeOpponent(PlayerStats(40.0, 30.0, 12.0)).kind == Maniac
    ensures AnalyzeOpponent(PlayerStats(10.0, 8.0, 3.0)).kind == Nit
    ensures AnalyzeOpponent(PlayerStats(28.0, 22.0, 8.0)).kind == LAG
    ensures AnalyzeOpponent(PlayerStats(22.0, 18.0, 7.0)).kind == TAG
  {
  }

  /** The fallback also catches players no rule describes: a passive
      mid-range player (VPIP 20, PFR 5) and a loose one that is neither
      passive nor aggressive enough (VPIP 38, PFR 20) are both TAG. */
  lemma FallbackCatchesOthers()
    ensures AnalyzeOpponent(PlayerStats(20.0, 5.0, 0.0)).kind == TAG
    ensures AnalyzeOpponent(PlayerStats(38.0, 20.0, 0.0)).kind == TAG
  {
  }
}
