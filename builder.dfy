/**
  Stat blocks, the final ninja record, the fluent builder and the director (NinjaBuilder.py).

  `Stats`, `FinalNinja` and `NinjaBuilder` are objects whose fields the source assigns in
  place, so they are classes here. A `FinalNinja` refers to its `Stats` object: the builder
  stores the caller's object itself, and training the built ninja later changes that object.
*/
module Builder {
  import opened Wrappers
  import opened Factory

  /** The nine attributes of `Stats`. */
  datatype StatName =
    | Chakra | ChakraControl | Ninjutsu | Taijutsu | Genjutsu
    | Speed | Resistance | Intelligence | Willpower

  /** The attribute's name as the source spells it. */
  function FieldName(s: StatName): string {
    match s
    case Chakra => "Chakra"
    case ChakraControl => "chakraControl"
    case Ninjutsu => "Ninjutsu"
    case Taijutsu => "Taijutsu"
    case Genjutsu => "Genjutsu"
    case Speed => "Speed"
    case Resistance => "Resistance"
    case Intelligence => "Intelligence"
    case Willpower => "Willpower"
  }

  /** The stat a name denotes, if it is one of the nine attribute names (case-sensitive). */
  function ParseStat(attribute: string): Option<StatName> {
    if attribute == "Chakra" then Some(Chakra)
    else if attribute == "chakraControl" then Some(ChakraControl)
    else if attribute == "Ninjutsu" then Some(Ninjutsu)
    else if attribute == "Taijutsu" then Some(Taijutsu)
    else if attribute == "Genjutsu" then Some(Genjutsu)
    else if attribute == "Speed" then Some(Speed)
    else if attribute == "Resistance" then Some(Resistance)
    else if attribute == "Intelligence" then Some(Intelligence)
    else if attribute == "Willpower" then Some(Willpower)
    else None
  }

  /** ParseStat recognises exactly the nine attribute names, and each as its own stat. */
  lemma ParseStatIsInverse(attribute: string, s: StatName)
    ensures ParseStat(FieldName(s)) == Some(s)
    ensures ParseStat(attribute) == Some(s) <==> attribute == FieldName(s)
  {
    match s
    case Chakra =>
    case ChakraControl =>
    case Ninjutsu =>
    case Taijutsu =>
    case Genjutsu =>
    case Speed =>
    case Resistance =>
    case Intelligence =>
    case Willpower =>
  }

  /** The values held by a `Stats` object. */
  datatype StatBlock = StatBlock(
    chakra: int, chakraControl: int, ninjutsu: int, taijutsu: int, genjutsu: int,
    speed: int, resistance: int, intelligence: int, willpower: int)
  {
    function Get(s: StatName): int {
      match s
      case Chakra => chakra
      case ChakraControl => chakraControl
      case Ninjutsu => ninjutsu
      case Taijutsu => taijutsu
      case Genjutsu => genjutsu
      case Speed => speed
      case Resistance => resistance
      case Intelligence => intelligence
      case Willpower => willpower
    }

    /** The block with stat `s` set to `v`. */
    function With(s: StatName, v: int): StatBlock {
      match s
      case Chakra => this.(chakra := v)
      case ChakraControl => this.(chakraControl := v)
      case Ninjutsu => this.(ninjutsu := v)
      case Taijutsu => this.(taijutsu := v)
      case Genjutsu => this.(genjutsu := v)
      case Speed => this.(speed := v)
      case Resistance => this.(resistance := v)
      case Intelligence => this.(intelligence := v)
      case Willpower => this.(willpower := v)
    }
  }

  /** Setting a stat changes that stat to the new value and no other stat. */
  lemma GetWith(b: StatBlock, s: StatName, v: int, t: StatName)
    ensures b.With(s, v).Get(t) == if s == t then v else b.Get(t)
  {
  }

  /** Two blocks that agree on every stat are the same block. */
  lemma StatBlockExtensionality(b: StatBlock, c: StatBlock)
    requires forall s :: b.Get(s) == c.Get(s)
    ensures b == c
  {
    assert b.Get(Chakra) == c.Get(Chakra) && b.Get(ChakraControl) == c.Get(ChakraControl);
    assert b.Get(Ninjutsu) == c.Get(Ninjutsu) && b.Get(Taijutsu) == c.Get(Taijutsu);
    assert b.Get(Genjutsu) == c.Get(Genjutsu) && b.Get(Speed) == c.Get(Speed);
    assert b.Get(Resistance) == c.Get(Resistance) && b.Get(Intelligence) == c.Get(Intelligence);
    assert b.Get(Willpower) == c.Get(Willpower);
  }

  /** What `Stats()` starts with. */
  const ZeroStats := StatBlock(0, 0, 0, 0, 0, 0, 0, 0, 0)

  /** A fresh `Stats` has every one of its nine attributes equal to 0. */
  lemma ZeroStatsAllZero(s: StatName)
    ensures ZeroStats.Get(s) == 0
  {
  }

  class Stats {
    var chakra: int
    var chakraControl: int
    var ninjutsu: int
    var taijutsu: int
    var genjutsu: int
    var speed: int
    var resistance: int
    var intelligence: int
    var willpower: int

    function Block(): StatBlock
      reads this
    {
      StatBlock(chakra, chakraControl, ninjutsu, taijutsu, genjutsu,
                speed, resistance, intelligence, willpower)
    }

    constructor ()
      ensures Block() == ZeroStats
    {
      chakra, chakraControl, ninjutsu, taijutsu, genjutsu := 0, 0, 0, 0, 0;
      speed, resistance, intelligence, willpower := 0, 0, 0, 0;
    }

    /** `getattr(stats, name)` for one of the nine names. */
    function Get(s: StatName): int
      reads this
    {
      Block().Get(s)
    }

    /** `setattr(stats, name, v)` for one of the nine names. */
    method Set(s: StatName, v: int)
      modifies this
      ensures Block() == old(Block()).With(s, v)
    {
      match s
      case Chakra => chakra := v;
      case ChakraControl => chakraControl := v;
      case Ninjutsu => ninjutsu := v;
      case Taijutsu => taijutsu := v;
      case Genjutsu => genjutsu := v;
      case Speed => speed := v;
      case Resistance => resistance := v;
      case Intelligence => intelligence := v;
      case Willpower => willpower := v;
    }
  }

  /** The personal fields of a `FinalNinja`: everything but its stats object. */
  datatype NinjaProfile = NinjaProfile(
    name: Option<string>, rank: Option<string>, chakra: Option<int>, clan: Option<string>,
    styleFight: Option<string>, weapon: Option<string>, village: Option<string>,
    jutsus: seq<Jutsu>)

  /** The personal fields of a freshly constructed `FinalNinja`. */
  const BlankProfile := NinjaProfile(None, None, None, None, None, None, None, [])

  class FinalNinja {
    var name: Option<string>
    var rank: Option<string>
    var chakra: Option<int>
    var clan: Option<string>
    var styleFight: Option<string>
    var weapon: Option<string>
    var village: Option<string>
    var jutsus: seq<Jutsu>
    var stats: Stats

    function Profile(): NinjaProfile
      reads this
    {
      NinjaProfile(name, rank, chakra, clan, styleFight, weapon, village, jutsus)
    }

    /** Every personal field unset, no jutsus, all-zero stats. */
    predicate IsBlank()
      reads this, stats
    {
      Profile() == BlankProfile && stats.Block() == ZeroStats
    }

    constructor ()
      ensures IsBlank() && fresh(stats)
    {
      name, rank, chakra, clan := None, None, None, None;
      styleFight, weapon, village, jutsus := None, None, None, [];
      stats := new Stats();
    }
  }

  /**
    The concrete builder. Each setter writes one field of the ninja in progress and
    returns the builder itself, so that calls can be chained.
  */
  class NinjaBuilder {
    var ninja: FinalNinja

    constructor ()
      ensures fresh(ninja) && fresh(ninja.stats) && ninja.IsBlank()
    {
      ninja := new FinalNinja();
    }

    /** Discard the ninja in progress and start a blank one. */
    method Reset()
      modifies this
      ensures fresh(ninja) && fresh(ninja.stats) && ninja.IsBlank()
    {
      ninja := new FinalNinja();
    }

    method SetName(name: string) returns (b: NinjaBuilder)
      modifies ninja
      ensures b == this && ninja.stats == old(ninja.stats)
      ensures ninja.Profile() == old(ninja.Profile()).(name := Some(name))
    {
      ninja.name := Some(name);
      b := this;
    }

    method SetRank(rank: string) returns (b: NinjaBuilder)
      modifies ninja
      ensures b == this && ninja.stats == old(ninja.stats)
      ensures ninja.Profile() == old(ninja.Profile()).(rank := Some(rank))
    {
      ninja.rank := Some(rank);
      b := this;
    }

    method SetChakra(chakra: int) returns (b: NinjaBuilder)
      modifies ninja
      ensures b == this && ninja.stats == old(ninja.stats)
      ensures ninja.Profile() == old(ninja.Profile()).(chakra := Some(chakra))
    {
      ninja.chakra := Some(chakra);
      b := this;
    }

    method SetClan(clan: string) returns (b: NinjaBuilder)
      modifies ninja
      ensures b == this && ninja.stats == old(ninja.stats)
      ensures ninja.Profile() == old(ninja.Profile()).(clan := Some(clan))
    {
      ninja.clan := Some(clan);
      b := this;
    }

    method SetStyleFight(style: string) returns (b: NinjaBuilder)
      modifies ninja
      ensures b == this && ninja.stats == old(ninja.stats)
      ensures ninja.Profile() == old(ninja.Profile()).(styleFight := Some(style))
    {
      ninja.styleFight := Some(style);
      b := this;
    }

    method SetWeapon(weapon: string) returns (b: NinjaBuilder)
      modifies ninja
      ensures b == this && ninja.stats == old(ninja.stats)
      ensures ninja.Profile() == old(ninja.Profile()).(weapon := Some(weapon))
    {
      ninja.weapon := Some(weapon);
      b := this;
    }

    /** Stores the caller's object itself, not a copy. */
    method SetStats(stats: Stats) returns (b: NinjaBuilder)
      modifies ninja
      ensures b == this && ninja.stats == stats
      ensures ninja.Profile() == old(ninja.Profile())
    {
      ninja.stats := stats;
      b := this;
    }

    method SetVillage(village: string) returns (b: NinjaBuilder)
      modifies ninja
      ensures b == this && ninja.stats == old(ninja.stats)
      ensures ninja.Profile() == old(ninja.Profile()).(village := Some(village))
    {
      ninja.village := Some(village);
      b := this;
    }

    /** `jutsus or []`: an absent or empty list is stored as the empty list. */
    method SetJutsus(jutsus: Option<seq<Jutsu>>) returns (b: NinjaBuilder)
      modifies ninja
      ensures b == this && ninja.stats == old(ninja.stats)
      ensures jutsus.None? ==> ninja.Profile() == old(ninja.Profile()).(jutsus := [])
      ensures jutsus.Some? ==> ninja.Profile() == old(ninja.Profile()).(jutsus := jutsus.value)
    {
      ninja.jutsus := if jutsus.Some? then jutsus.value else [];
      b := this;
    }

    /**
      Hand back the ninja built so far, untouched, and start a blank one; a second call
      with no setter in between therefore returns a blank ninja.
    */
    method GetResult() returns (r: FinalNinja)
      modifies this
      ensures r == old(ninja) && r.Profile() == old(ninja.Profile()) && r.stats == old(ninja.stats)
      ensures fresh(ninja) && fresh(ninja.stats) && ninja.IsBlank()
    {
      r := ninja;
      Reset();
    }
  }

  /** Drives a builder through a fixed setter sequence for the ninjas of one factory. */
  class Director {
    const factory: Village

    constructor (factory: Village)
      ensures this.factory == factory
    {
      this.factory := factory;
    }

    /**
      Reset the builder, apply the personal fields, the village label and the factory
      ninja's jutsus, and return the result. Whatever the builder held before is neither
      returned nor changed; the caller's stats object becomes the ninja's stats.
    */
    method MakeNinja(builder: NinjaBuilder, name: string, rank: string, chakra: int, clan: string,
                     styleFight: string, weapon: string, stats: Stats) returns (r: FinalNinja)
      modifies builder
      ensures fresh(r) && r.stats == stats
      ensures r.Profile() == NinjaProfile(Some(name), Some(rank), Some(chakra), Some(clan),
                                          Some(styleFight), Some(weapon),
                                          Some(VillageName(factory)), JutsuSet(factory))
      ensures fresh(builder.ninja) && fresh(builder.ninja.stats) && builder.ninja.IsBlank()
    {
      var base := CreateNinja(factory);
      var villageName := VillageLabel(base.Class());
      builder.Reset();
      var b := builder.SetName(name);
      b := b.SetRank(rank);
      b := b.SetChakra(chakra);
      b := b.SetClan(clan);
      b := b.SetStyleFight(styleFight);
      b := b.SetWeapon(weapon);
      b := b.SetStats(stats);
      b := b.SetVillage(villageName);
      b := b.SetJutsus(Some(base.GetJutsus()));
      r := builder.GetResult();
    }
  }
}
