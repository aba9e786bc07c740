/**
  The JSON export visitor (Visitor.py).

  The visitor accumulates, in place, the record structure that the source hands to its JSON
  serializer: a list of ninja records and a list of mission records. The text rendering
  itself is not part of this model; `ExportAll` returns the structure.
*/
module Export {
  import opened Wrappers
  import opened Factory
  import opened Builder
  import opened Missions

  datatype JutsuRecord = JutsuRecord(name: string, description: string, chakraCost: int)

  /**
    The "jutsus" entry: records built from `get_jutsus()`, or, for an object without that
    accessor but with a `jutsus` attribute, the jutsu objects themselves.
  */
  datatype ExportedJutsus = Records(records: seq<JutsuRecord>) | Raw(jutsus: seq<Jutsu>)

  datatype StatsRecord = StatsRecord(attack: int, defense: int, chakra: int)

  datatype NinjaRecord = NinjaRecord(
    name: Option<string>, village: string, rank: Option<string>, stats: StatsRecord,
    jutsus: ExportedJutsus)

  datatype MissionRecord = MissionRecord(
    id: string, title: string, requiredRank: string, reward: int, description: string)

  /** The visitor's `_data`: the "ninjas" and "missions" lists. */
  datatype ExportData = ExportData(ninjas: seq<NinjaRecord>, missions: seq<MissionRecord>)

  const EmptyData := ExportData([], [])

  /** The two shapes of ninja the visitor reads: factory-built and builder-built. */
  datatype Visitable = BaseVisit(base: BaseNinja) | FinalVisit(ninja: FinalNinja)

  /** Python's `x or None` on an optional string: an unset or empty string gives `None`. */
  function OrNone(s: Option<string>): (r: Option<string>)
    ensures r.Some? <==> s.Some? && s.value != ""
    ensures r.Some? ==> r == s
  {
    if s.Some? && s.value != "" then s else None
  }

  function ExportJutsu(j: Jutsu): JutsuRecord {
    JutsuRecord(j.GetName(), j.GetDescription(), j.GetChakraCost())
  }

  /** One record per jutsu, in the ninja's order. */
  function ExportJutsus(jutsus: seq<Jutsu>): (r: seq<JutsuRecord>)
    ensures |r| == |jutsus|
    ensures forall i :: 0 <= i < |jutsus| ==> r[i] == JutsuRecord(
      jutsus[i].name, jutsus[i].description, jutsus[i].chakraCost)
  {
    if jutsus == [] then [] else [ExportJutsu(jutsus[0])] + ExportJutsus(jutsus[1..])
  }

  /** The `.name` of a mission rank enum member. */
  function MissionRankName(r: MissionRank): string {
    match r
    case D => "D"
    case C => "C"
    case B => "B"
    case A => "A"
    case S => "S"
  }

  /** The record `visit_ninja` appends for `v`. */
  function ExportNinja(v: Visitable): NinjaRecord
    reads if v.FinalVisit? then {v.ninja, v.ninja.stats} else {}
  {
    match v
    case BaseVisit(b) =>
      NinjaRecord(None, VillageLabel(b.Class()), None, StatsRecord(0, 0, 0),
                  Records(ExportJutsus(b.GetJutsus())))
    case FinalVisit(n) =>
      NinjaRecord(OrNone(n.name), VillageLabel(FinalNinjaClass), OrNone(n.rank),
                  StatsRecord(n.stats.Get(Ninjutsu), n.stats.Get(Willpower), 0),
                  Raw(n.jutsus))
  }

  /**
    A factory-built ninja exports its village name, no name or rank, zero stats and one
    jutsu record per jutsu, in the ninja's order.
  */
  lemma ExportBaseNinjaFields(b: BaseNinja)
    ensures ExportNinja(BaseVisit(b)).village == VillageName(b.village)
    ensures ExportNinja(BaseVisit(b)).name.None? && ExportNinja(BaseVisit(b)).rank.None?
    ensures ExportNinja(BaseVisit(b)).stats == StatsRecord(0, 0, 0)
    ensures ExportNinja(BaseVisit(b)).jutsus == Records(ExportJutsus(b.jutsus))
  {
  }

  /**
    A builder-built ninja exports village "Final" (not its own village field), attack from
    Ninjutsu, defense from Willpower, chakra 0, and its jutsu objects unconverted.
  */
  lemma ExportFinalNinjaFields(n: FinalNinja)
    ensures ExportNinja(FinalVisit(n)).village == "Final"
    ensures ExportNinja(FinalVisit(n)).stats
      == StatsRecord(n.stats.ninjutsu, n.stats.willpower, 0)
    ensures ExportNinja(FinalVisit(n)).jutsus == Raw(n.jutsus)
  {
  }

  /** The record `visit_mission` appends for `m`: its fields, with the rank's name. */
  function ExportMission(m: Mission): MissionRecord {
    MissionRecord(m.id, m.title, MissionRankName(m.requiredRank), m.reward, m.description)
  }

  class JSONExportVisitor {
    var data: ExportData

    constructor ()
      ensures data == EmptyData
    {
      data := EmptyData;
    }

    /** Empty both lists. */
    method Reset()
      modifies this
      ensures data == EmptyData
    {
      data := EmptyData;
    }

    /** Append one ninja record at the end; the mission list is untouched. */
    method VisitNinja(v: Visitable)
      modifies this
      ensures data == ExportData(old(data).ninjas + [ExportNinja(v)], old(data).missions)
    {
      data := data.(ninjas := data.ninjas + [ExportNinja(v)]);
    }

    /** Append one mission record at the end; the ninja list is untouched. */
    method VisitMission(m: Mission)
      modifies this
      ensures data == ExportData(old(data).ninjas, old(data).missions + [ExportMission(m)])
    {
      data := data.(missions := data.missions + [ExportMission(m)]);
    }
  }

  /**
    `export_all`: reset, visit every ninja in order, then every mission in order. The
    result depends only on the inputs, not on what the visitor held before.
  */
  method ExportAll(visitor: JSONExportVisitor, ninjas: seq<Visitable>, missions: seq<Mission>)
    returns (data: ExportData)
    modifies visitor
    ensures data == visitor.data
    ensures |data.ninjas| == |ninjas|
    ensures forall i :: 0 <= i < |ninjas| ==> data.ninjas[i] == ExportNinja(ninjas[i])
    ensures |data.missions| == |missions|
    ensures forall i :: 0 <= i < |missions| ==> data.missions[i] == ExportMission(missions[i])
  {
    visitor.Reset();
    for i := 0 to |ninjas|
      invariant visitor.data.missions == [] && |visitor.data.ninjas| == i
      invariant forall k :: 0 <= k < i ==> visitor.data.ninjas[k] == ExportNinja(ninjas[k])
    {
      visitor.VisitNinja(ninjas[i]);
    }
    for i := 0 to |missions|
      invariant |visitor.data.ninjas| == |ninjas| && |visitor.data.missions| == i
      invariant forall k :: 0 <= k < |ninjas| ==> visitor.data.ninjas[k] == ExportNinja(ninjas[k])
      invariant forall k :: 0 <= k < i ==> visitor.data.missions[k] == ExportMission(missions[k])
    {
      visitor.VisitMission(missions[i]);
    }
    data := visitor.data;
  }

  /** Two exports of the same inputs in a row produce the same data. */
  method ExportAllTwice(visitor: JSONExportVisitor, ninjas: seq<Visitable>, missions: seq<Mission>)
    returns (first: ExportData, second: ExportData)
    modifies visitor
    ensures first == second && second == visitor.data
  {
    first := ExportAll(visitor, ninjas, missions);
    second := ExportAll(visitor, ninjas, missions);
  }
}
