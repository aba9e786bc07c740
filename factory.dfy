/**
  Village factories, base ninjas and the jutsu catalogue (FactoryAbstractNaruto.py).

  Each of the five concrete factories is stateless, so a factory is identified by its
  village. A jutsu (`CreateJutsu`) never changes after construction and is a value here;
  so is a base ninja, whose only state is the list it was built with.
*/
module Factory {
  import opened Wrappers

  /** A concrete jutsu: the three constructor arguments of `CreateJutsu`. */
  datatype Jutsu = Jutsu(name: string, description: string, chakraCost: int) {
    function GetName(): string { name }
    function GetDescription(): string { description }
    function GetChakraCost(): int { chakraCost }
  }

  /** The getters hand back exactly what the constructor was given. */
  lemma JutsuGettersReturnArguments(name: string, description: string, cost: int)
    ensures Jutsu(name, description, cost).GetName() == name
    ensures Jutsu(name, description, cost).GetDescription() == description
    ensures Jutsu(name, description, cost).GetChakraCost() == cost
  {
  }

  /** One concrete factory per village. */
  datatype Village = Konoha | Suna | Kiri | Iwa | Kumo

  /** The village part of the names of the concrete ninja classes. */
  function VillageName(v: Village): string {
    match v
    case Konoha => "Konoha"
    case Suna => "Suna"
    case Kiri => "Kiri"
    case Iwa => "Iwa"
    case Kumo => "Kumo"
  }

  /** The ninja classes whose type name a village label is derived from. */
  datatype NinjaClass = VillageNinja(village: Village) | FinalNinjaClass

  /** `type(x).__name__` of an instance of the class. */
  function ClassName(c: NinjaClass): string {
    match c
    case VillageNinja(v) => VillageName(v) + "Ninja"
    case FinalNinjaClass => "FinalNinja"
  }

  /**
    The label a ninja's village is known by: the part of its class name before "Ninja",
    "Konoha" for a `KonohaNinja`, ..., "Final" for a `FinalNinja`. That this is what
    `type(x).__name__.replace("Ninja", "")` computes is `VillageLabelIsReplace`.
  */
  function VillageLabel(c: NinjaClass): string {
    match c
    case VillageNinja(v) => VillageName(v)
    case FinalNinjaClass => "Final"
  }

  /** `pat` is a prefix of `s`, compared character by character. */
  predicate StartsWith(s: string, pat: string) {
    |pat| <= |s| && (pat == [] || (s[0] == pat[0] && StartsWith(s[1..], pat[1..])))
  }

  /**
    Python's `s.replace(pat, rep)` for a non-empty pattern: scan left to right and
    replace every non-overlapping occurrence.
  */
  function ReplaceAll(s: string, pat: string, rep: string): string
    requires |pat| > 0
    decreases |s|
  {
    if s == [] then []
    else
      var matched := StartsWith(s, pat);
      (if matched then rep else [s[0]]) + ReplaceAll(s[if matched then |pat| else 1..], pat, rep)
  }

  /** A prefix that does not contain the pattern's first character is copied unchanged. */
  lemma {:induction false} ReplaceAllSkipsPrefix(v: string, w: string, pat: string, rep: string)
    requires |pat| > 0 && pat[0] !in v
    ensures ReplaceAll(v + w, pat, rep) == v + ReplaceAll(w, pat, rep)
    decreases |v|
  {
    if v == [] {
      assert v + w == w;
    } else {
      assert (v + w)[0] == v[0] != pat[0];
      assert (v + w)[1..] == v[1..] + w;
      ReplaceAllSkipsPrefix(v[1..], w, pat, rep);
    }
  }

  /** Every string starts with itself. */
  lemma {:induction false} StartsWithItself(s: string)
    ensures StartsWith(s, s)
    decreases |s|
  {
    if s != [] {
      StartsWithItself(s[1..]);
    }
  }

  /** Replacing in the pattern itself leaves exactly the replacement. */
  lemma ReplaceAllOfPattern(pat: string, rep: string)
    requires |pat| > 0
    ensures ReplaceAll(pat, pat, rep) == rep
  {
    StartsWithItself(pat);
    assert pat[|pat|..] == [];
    assert rep + [] == rep;
  }

  /** Removing "Ninja" from a class name with Python's `replace` leaves the village label. */
  lemma VillageLabelIsReplace(c: NinjaClass)
    ensures ReplaceAll(ClassName(c), "Ninja", "") == VillageLabel(c)
  {
    assert ClassName(c) == VillageLabel(c) + "Ninja";
    assert 'N' !in VillageLabel(c);
    ReplaceAllSkipsPrefix(VillageLabel(c), "Ninja", "Ninja", "");
    ReplaceAllOfPattern("Ninja", "");
    assert VillageLabel(c) + "" == VillageLabel(c);
  }

  /** `createJutsuSet()` of each concrete factory, in the order the factory lists them. */
  function JutsuSet(v: Village): seq<Jutsu> {
    match v
    case Konoha => [
      Jutsu("Rasengan", "Esfera de chakra concentrado", 30),
      Jutsu("Kage Bunshin", "Clones de sombra", 20)
    ]
    case Suna => [
      Jutsu("Sabaku Kyū", "Prisión de arena", 25),
      Jutsu("Sabaku Taisō", "Aplastamiento de arena", 40)
    ]
    case Kiri => [
      Jutsu("Kirigakure no Jutsu", "Ocultar en la niebla", 15),
      Jutsu("Suiton: Suiryūdan", "Dragón de agua", 35)
    ]
    case Iwa => [
      Jutsu("Earth Style: Rock Avalanche", "Avalancha de rocas controladas", 35),
      Jutsu("Earth Wall", "Muro de tierra defensivo", 25)
    ]
    case Kumo => [
      Jutsu("Lightning Style: Thunderclap Arrow", "Flecha de trueno concentrado", 40),
      Jutsu("Static Armor", "Armadura eléctrica que paraliza al contacto", 30)
    ]
  }

  /** Every factory's set has two jutsus with distinct names and positive chakra costs. */
  lemma JutsuSetShape(v: Village)
    ensures |JutsuSet(v)| == 2
    ensures JutsuSet(v)[0].name != JutsuSet(v)[1].name
    ensures forall j :: j in JutsuSet(v) ==> j.chakraCost > 0
  {
  }

  /** Konoha's set is Rasengan (cost 30) followed by Kage Bunshin (cost 20). */
  lemma KonohaJutsuSet()
    ensures |JutsuSet(Konoha)| == 2
    ensures JutsuSet(Konoha)[0].name == "Rasengan" && JutsuSet(Konoha)[0].chakraCost == 30
    ensures JutsuSet(Konoha)[1].name == "Kage Bunshin" && JutsuSet(Konoha)[1].chakraCost == 20
  {
  }

  /** A ninja built by a factory: its class (one per village) and its jutsu list. */
  datatype BaseNinja = BaseNinja(village: Village, jutsus: seq<Jutsu>) {

    /** `get_jutsus()`: the list the ninja was constructed with. */
    function GetJutsus(): (r: seq<Jutsu>)
      ensures r == jutsus
    {
      jutsus
    }

    function Class(): NinjaClass {
      VillageNinja(village)
    }
  }

  /** `createNinja()` of the village's factory. */
  function CreateNinja(v: Village): (b: BaseNinja)
    ensures b.village == v && b.GetJutsus() == JutsuSet(v)
  {
    BaseNinja(v, JutsuSet(v))
  }

  /** The index of the first jutsu called `name`, if there is one. */
  function FindJutsu(jutsus: seq<Jutsu>, name: string): (r: Option<nat>)
    ensures r.Some? ==> r.value < |jutsus| && jutsus[r.value].name == name
    ensures r.Some? ==> forall k :: 0 <= k < r.value ==> jutsus[k].name != name
    ensures r.None? <==> forall k :: 0 <= k < |jutsus| ==> jutsus[k].name != name
  {
    if jutsus == [] then None
    else if jutsus[0].name == name then Some(0)
    else match FindJutsu(jutsus[1..], name)
      case None => None
      case Some(i) => Some(i + 1)
  }

  /** What `use_jutsu` does: perform a known jutsu, or report that it is not known. */
  datatype JutsuUse = Performed(jutsu: Jutsu) | NotKnown(message: string)

  /** `use_jutsu(name)`: the first jutsu of the list with that name, or the refusal message. */
  function UseJutsu(ninja: BaseNinja, name: string): (r: JutsuUse)
    ensures r.NotKnown? <==> forall j :: j in ninja.jutsus ==> j.name != name
    ensures r.NotKnown? ==> r.message == "Este ninja no conoce el jutsu " + name + "."
    ensures r.Performed? ==>
      (exists k :: 0 <= k < |ninja.jutsus| && r.jutsu == ninja.jutsus[k] && r.jutsu.name == name &&
        forall i :: 0 <= i < k ==> ninja.jutsus[i].name != name)
  {
    match FindJutsu(ninja.jutsus, name)
    case Some(k) => Performed(ninja.jutsus[k])
    case None => NotKnown("Este ninja no conoce el jutsu " + name + ".")
  }
}
