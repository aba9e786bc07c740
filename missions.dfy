/**
  Ranks, missions, the eligibility table and the mission board (MissionSystem.py).

  A mission never changes after construction and is a value; the board's list is
  appended to in place, so the board is a class.
*/
module Missions {
  import opened Wrappers
  import opened Builder

  /** Ninja ranks, lowest first. */
  datatype Rank = Genin | Chunin | Jonin

  /** Mission difficulty, easiest first. */
  datatype MissionRank = D | C | B | A | S

  /** `RANK_MAP`: the rank strings a `FinalNinja` may carry. */
  function RankFromString(s: string): Option<Rank> {
    if s == "Genin" then Some(Genin)
    else if s == "Chunin" then Some(Chunin)
    else if s == "Jonin" then Some(Jonin)
    else None
  }

  /** The spelling of each rank in `RANK_MAP`. */
  function RankString(r: Rank): string {
    match r
    case Genin => "Genin"
    case Chunin => "Chunin"
    case Jonin => "Jonin"
  }

  /** `RANK_MAP` knows exactly the three spellings, each for its own rank. */
  lemma RankFromStringIsInverse(s: string, r: Rank)
    ensures RankFromString(RankString(r)) == Some(r)
    ensures RankFromString(s) == Some(r) <==> s == RankString(r)
  {
  }

  /** The position of a rank in the seniority order. */
  function Level(r: Rank): nat {
    match r
    case Genin => 0
    case Chunin => 1
    case Jonin => 2
  }

  /** The hierarchy table: the mission ranks each ninja rank may take, as listed. */
  function Hierarchy(r: Rank): seq<MissionRank> {
    match r
    case Genin => [D, C]
    case Chunin => [D, C, B]
    case Jonin => [D, C, B, A, S]
  }

  datatype Mission = Mission(
    id: string, title: string, requiredRank: MissionRank, reward: int, description: string)
  {
    /** `_rank_allowed`: the mission's rank is in the list the table gives for `r`. */
    predicate RankAllowed(r: Rank) {
      requiredRank in Hierarchy(r)
    }

    /** `is_eligible`: the ninja's rank string maps to a rank the mission allows. */
    predicate IsEligible(ninjaRank: Option<string>) {
      ninjaRank.Some? && RankFromString(ninjaRank.value).Some? &&
      RankAllowed(RankFromString(ninjaRank.value).value)
    }
  }

  /** A ninja without one of the three rank strings is eligible for no mission. */
  lemma UnrankedNeverEligible(m: Mission, ninjaRank: Option<string>)
    requires ninjaRank != Some("Genin") && ninjaRank != Some("Chunin") && ninjaRank != Some("Jonin")
    ensures !m.IsEligible(ninjaRank)
  {
  }

  /** Eligibility follows the table for every ninja rank and mission rank. */
  lemma EligibilityTable(m: Mission)
    ensures m.IsEligible(Some("Genin")) <==> m.requiredRank == D || m.requiredRank == C
    ensures m.IsEligible(Some("Chunin")) <==>
      m.requiredRank == D || m.requiredRank == C || m.requiredRank == B
    ensures m.IsEligible(Some("Jonin"))
  {
  }

  /** What is open to a rank is open to every higher rank. */
  lemma RankAllowedMonotone(m: Mission, lower: Rank, higher: Rank)
    requires Level(lower) <= Level(higher) && m.RankAllowed(lower)
    ensures m.RankAllowed(higher)
  {
  }

  /** `k` is the first mission of the list whose id is `id`. */
  predicate IsFirstWithId(missions: seq<Mission>, id: string, k: int) {
    0 <= k < |missions| && missions[k].id == id &&
    forall i :: 0 <= i < k ==> missions[i].id != id
  }

  /** The three results of `assign`; both found outcomes name the ninja and the mission. */
  datatype AssignOutcome =
    | MissionNotFound
    | Accepted(ninjaName: Option<string>, title: string)
    | RankInsufficient(ninjaName: Option<string>, title: string)

  /** The decision `assign` takes once it has found mission `m`. */
  function Verdict(m: Mission, ninjaName: Option<string>, ninjaRank: Option<string>): AssignOutcome {
    if m.IsEligible(ninjaRank) then Accepted(ninjaName, m.title)
    else RankInsufficient(ninjaName, m.title)
  }

  /** The mission board: the missions in the order they were added. Ids need not be unique. */
  class MissionManager {
    var missions: seq<Mission>

    constructor ()
      ensures missions == []
    {
      missions := [];
    }

    /** Append, without checking for a mission with the same id. */
    method AddMission(m: Mission)
      modifies this
      ensures missions == old(missions) + [m]
    {
      missions := missions + [m];
    }

    /**
      Look up the first mission with the given id and decide on it; the board is only
      read. An id that matches nothing gives `MissionNotFound` whatever the ninja.
    */
    method Assign(ninja: FinalNinja, missionId: string) returns (o: AssignOutcome)
      ensures o.MissionNotFound? <==> forall k :: 0 <= k < |missions| ==> missions[k].id != missionId
      ensures !o.MissionNotFound? ==>
        exists k :: IsFirstWithId(missions, missionId, k) &&
          o == Verdict(missions[k], ninja.name, ninja.rank)
    {
      var i := 0;
      while i < |missions| && missions[i].id != missionId
        invariant 0 <= i <= |missions|
        invariant forall k :: 0 <= k < i ==> missions[k].id != missionId
      {
        i := i + 1;
      }
      if i == |missions| {
        o := MissionNotFound;
      } else {
        assert IsFirstWithId(missions, missionId, i);
        o := Verdict(missions[i], ninja.name, ninja.rank);
      }
    }
  }
}
