# NinjaMaker in Dafny

A verified model of the NinjaMaker teaching repository. It covers five pieces:

- The village factories and their jutsu catalogue (`FactoryAbstractNaruto.py`).
- The fluent `NinjaBuilder` and the `Director` that drives it (`NinjaBuilder.py`).
- Missions, the rank-eligibility table and the mission board (`MissionSystem.py`).
- Stat training (`Training.py`).
- The JSON export visitor (`Visitor.py`).

The modules follow these files. `Factory` sits in `factory.dfy`, `Builder` in `builder.dfy`, `Missions` in `missions.dfy`, `Training` in `training.dfy` and `Export` in `visitor.dfy`. `Wrappers` (`wrappers.dfy`) holds an `Option` type that stands for Python's `None`. `Scenarios` (`scenarios.dfy`) replays the repository's example scripts against the contracts of the other modules.

Objects whose fields the source assigns in place are Dafny classes, with `modifies` frames on their methods: `Stats`, `FinalNinja`, `NinjaBuilder`, `MissionManager` and `JSONExportVisitor`. Objects that never change after construction are datatypes: jutsus, factory-built ninjas and missions.

`Stats` is a class for a reason. The builder stores the caller's `Stats` object itself, so training a built ninja changes the object the caller passed to `makeNinja`. The model keeps that aliasing: `MakeNinja` ensures `r.stats == stats`.

Python reflection is replaced by closed enumerations:

- Attribute names become `StatName`, parsed from the string by `ParseStat`.
- Class names become `NinjaClass`.
- `type(x).__name__.replace("Ninja", "")` is the table `VillageLabel`. The lemma `VillageLabelIsReplace` proves that the table agrees with a left-to-right model of Python's `str.replace` (`ReplaceAll`) applied to the class name.

Where the code prints a message or returns one, the model returns an outcome datatype instead: `AssignOutcome`, `TrainOutcome` and `JutsuUse`.

## Model

| member | source | states |
|---|---|---|
| Factory.JutsuGettersReturnArguments | FactoryAbstractNaruto.py:21-33 | `get_name`, `get_description` and `get_chakra_cost` return exactly the constructor's three arguments |
| Factory.VillageLabelIsReplace | NinjaBuilder.py:150 | removing every "Ninja" from a class name with `str.replace` leaves the village label: "Konoha" for `KonohaNinja` and so on, "Final" for `FinalNinja` |
| Factory.ReplaceAllSkipsPrefix | Visitor.py:42 | `str.replace` copies unchanged a prefix that does not contain the pattern's first character |
| Factory.ReplaceAllOfPattern | Visitor.py:42 | `str.replace` applied to the pattern itself yields exactly the replacement |
| Factory.JutsuSetShape | FactoryAbstractNaruto.py:94-138 | every factory's `createJutsuSet()` has exactly two jutsus, with distinct names, and every chakra cost is positive |
| Factory.KonohaJutsuSet | FactoryAbstractNaruto.py:94-98 | Konoha's set is Rasengan (cost 30) followed by Kage Bunshin (cost 20), in that order |
| Factory.BaseNinja.GetJutsus | FactoryAbstractNaruto.py:50-54 | `get_jutsus()` returns the very list the ninja was constructed with |
| Factory.CreateNinja | FactoryAbstractNaruto.py:90-138 | each factory's `createNinja()` is a ninja of that village's class whose jutsu list is that factory's `createJutsuSet()` |
| Factory.FindJutsu | FactoryAbstractNaruto.py:57-59 | the index found holds a jutsu with that name and no earlier jutsu has it; no index is found exactly when no jutsu has the name |
| Factory.UseJutsu | FactoryAbstractNaruto.py:56-60 | "not known" exactly when no jutsu in the list has the name, and then the message is "Este ninja no conoce el jutsu <name>."; otherwise the first jutsu in list order with that name is performed |
| Builder.ParseStatIsInverse | Training.py:21 | exactly the nine `Stats` attribute names, spelled as the source spells them (case-sensitive, e.g. "chakraControl"), are recognised, and each denotes its own stat |
| Builder.GetWith | Training.py:29 | `setattr` of one stat changes that stat to the new value and leaves the other eight as they were |
| Builder.StatBlockExtensionality | NinjaBuilder.py:9-19 | two stat blocks that agree on all nine attributes are equal |
| Builder.ZeroStatsAllZero | NinjaBuilder.py:9-19 | all nine attributes of a fresh `Stats` are 0 |
| Builder.Stats.constructor | NinjaBuilder.py:10-19 | a new `Stats` holds the all-zero block |
| Builder.Stats.Set | Training.py:29 | writing one attribute gives the old block with that one stat replaced |
| Builder.FinalNinja.constructor | NinjaBuilder.py:26-35 | a new `FinalNinja` has every personal field unset, an empty jutsu list and a new all-zero `Stats` |
| Builder.NinjaBuilder.constructor | NinjaBuilder.py:83-87 | a new builder holds a new, blank ninja |
| Builder.NinjaBuilder.Reset | NinjaBuilder.py:86-87 | the ninja in progress is replaced by a new, blank one |
| Builder.NinjaBuilder.SetName | NinjaBuilder.py:89-91 | sets the name, leaves every other field and the stats object as they were, and returns the same builder |
| Builder.NinjaBuilder.SetRank | NinjaBuilder.py:93-95 | sets the rank and nothing else, and returns the same builder |
| Builder.NinjaBuilder.SetChakra | NinjaBuilder.py:97-99 | sets the chakra and nothing else, and returns the same builder |
| Builder.NinjaBuilder.SetClan | NinjaBuilder.py:101-103 | sets the clan and nothing else, and returns the same builder |
| Builder.NinjaBuilder.SetStyleFight | NinjaBuilder.py:105-107 | sets the fighting style and nothing else, and returns the same builder |
| Builder.NinjaBuilder.SetWeapon | NinjaBuilder.py:109-111 | sets the weapon and nothing else, and returns the same builder |
| Builder.NinjaBuilder.SetStats | NinjaBuilder.py:113-115 | the ninja now refers to the caller's `Stats` object itself; every personal field is unchanged; returns the same builder |
| Builder.NinjaBuilder.SetVillage | NinjaBuilder.py:117-119 | sets the village and nothing else, and returns the same builder |
| Builder.NinjaBuilder.SetJutsus | NinjaBuilder.py:121-123 | stores the given list, or the empty list when none is given; nothing else changes; returns the same builder |
| Builder.NinjaBuilder.GetResult | NinjaBuilder.py:125-128 | returns the ninja in progress, with its fields and stats object untouched, and leaves the builder holding a new, blank ninja, so a second call with no setter in between returns a blank ninja |
| Builder.Director.constructor | NinjaBuilder.py:133-134 | the director keeps its factory |
| Builder.Director.MakeNinja | NinjaBuilder.py:136-165 | the result is a new ninja, whatever the builder held before. Name, rank, chakra, clan, style and weapon are the arguments. Stats is the caller's own object. Village is the factory's village label. Jutsus are the factory's set. The builder is left with a new, blank ninja |
| Missions.RankFromStringIsInverse | MissionSystem.py:27-31 | `RANK_MAP` maps exactly "Genin", "Chunin" and "Jonin", each to its own rank |
| Missions.UnrankedNeverEligible | MissionSystem.py:53-55 | a ninja whose rank is absent or not one of the three strings is eligible for no mission |
| Missions.EligibilityTable | MissionSystem.py:62-67 | a Genin is eligible exactly for D and C, a Chunin exactly for D, C and B, and a Jonin for every mission |
| Missions.RankAllowedMonotone | MissionSystem.py:62-66 | any mission rank open to a ninja rank is open to every higher ninja rank |
| Missions.MissionManager.constructor | MissionSystem.py:75-76 | a new board is empty |
| Missions.MissionManager.AddMission | MissionSystem.py:78-79 | appends the mission at the end; the earlier missions keep their order; duplicate ids are not rejected |
| Missions.MissionManager.Assign | MissionSystem.py:82-94 | not found exactly when no mission has the id, whatever the ninja. Otherwise the first mission in list order with that id decides: accepted if the ninja is eligible, else rank insufficient, both naming the ninja and the mission's title. The board is not modified |
| Training.TrainStatChangesOnlyThatStat | Training.py:23-29 | training adds exactly the given points, negative ones included, to the trained stat, with no clamping, and leaves the other eight stats unchanged |
| Training.TrainStatAdditive | Training.py:23-29 | training a stat by p and then by q gives the same block as training it once by p + q |
| Training.TrainNinja | Training.py:11-35 | for one of the nine stat names, the ninja's stats object gets that stat increased by the points and the outcome reports the old and new values. For any other name, every stat is unchanged and the outcome names the attribute. The stats object and every other field of the ninja stay the same |
| Export.OrNone | Visitor.py:28-29 | Python's `x or None` on a name or rank: `None` when the value is unset or the empty string, the value itself otherwise |
| Export.ExportJutsus | Visitor.py:33-38 | one record per jutsu, in the ninja's order, each holding that jutsu's name, description and chakra cost |
| Export.ExportBaseNinjaFields | Visitor.py:26-53 | a factory-built ninja exports its village name, no name and no rank, stats 0/0/0, and one record per jutsu in order |
| Export.ExportFinalNinjaFields | Visitor.py:26-53 | a builder-built ninja exports village "Final", whatever its own village field holds. Attack is its Ninjutsu, defense its Willpower and chakra 0, because `Stats` has no lowercase `chakra`. Its jutsu objects are passed through unconverted |
| Export.JSONExportVisitor.constructor | Visitor.py:20-24 | a new visitor holds empty ninja and mission lists |
| Export.JSONExportVisitor.Reset | Visitor.py:23-24 | both lists become empty |
| Export.JSONExportVisitor.VisitNinja | Visitor.py:43-53 | appends exactly one ninja record at the end of the ninja list; the mission list is unchanged |
| Export.JSONExportVisitor.VisitMission | Visitor.py:55-62 | appends exactly one record at the end of the mission list, holding the id, title, rank name, reward and description; the ninja list is unchanged |
| Export.ExportAll | Visitor.py:68-74 | independent of what the visitor held before, the result has one ninja record per input ninja and one mission record per input mission, each the record of the input at the same position |
| Export.ExportAllTwice | Visitor.py:68-69 | two exports of the same inputs produce the same data |
| Scenarios.BuildNaruto | MissionSystem.py:99-116 | the example's director-built Genin is named "Naruto", ranked "Genin", and refers to the caller's stats object, unchanged |
| Scenarios.MissionBoardExample | MissionSystem.py:124-150 | on the example board a Genin is accepted for the D and the C mission, refused for rank on the S mission, and gets not-found for an id that is not on the board |
| Scenarios.MissionBoardRun | MissionSystem.py:99-150 | the mission example end to end: the director-built Genin is accepted for the D and the C mission and refused for rank on the S mission |
| Scenarios.TrainingExample | Training.py:74-83 | from Ninjutsu 80, Taijutsu 50 and Willpower 95: Ninjutsu goes from 80 to 90, Genjutsu from 0 to 5, "Cocina" is reported unknown, and Taijutsu goes from 50 to 65 |
| Scenarios.TrainingRun | Training.py:40-83 | the training example end to end: the stats object the caller handed to the director ends with Ninjutsu 90, Genjutsu 5, Taijutsu 65 and Willpower 95 |
| Scenarios.KonohaFirstJutsuRecord | Visitor.py:33-38 | Konoha's ninja exports two jutsu records, the first being Rasengan's, with its description and cost 30 |
| Scenarios.ExportExample | Main.py:7-26 | exporting three factory ninjas and the missions M001 (C), M002 (A) and M003 (S) gives three ninja records with their villages in input order, and three mission records with rank names C, A and S, the last with reward 5000 |

## Left out

- Printing: the `print` calls in `add_mission` and `train_ninja`, and each module's example script, are left out as console output. The example scripts are replayed as the `Scenarios` methods without their output.
- `Main.py`'s file write (`reporte.json`) is I/O and is left out. Its export is `Scenarios.ExportExample`.
- `JSONExportVisitor.result` (`json.dumps`) renders text with a foreign library. The model returns the record structure that would be serialized.
- The `Visitor` base class's `reset`/`result` placeholders are left out. Only the concrete visitor is used.
- Export.ExportAll: `export_all` calls `accept` on each object, but no class in the repository defines `accept`. In the source, `export_all` therefore raises `AttributeError` at Visitor.py:71 on its first ninja, and the export in `Main.py` (line 26) fails with it. The model calls `VisitNinja` and `VisitMission` directly, in the same order, so it describes what the visitor would produce once dispatch works.
- Export.ExportNinja: the raw-jutsu branch for a `FinalNinja` keeps the `Jutsu` values themselves (`Raw`). It does not model the serializer's failure on them.
- Export.ExportNinja: the `get_name`/`get_rank`/`get_stats` fallbacks, `isinstance(rank, str)`/`rank.value`, and the `attack`/`defense` attribute fallbacks are reduced to what they give for the two kinds of ninja the repository defines. It does not model arbitrary objects.
- Builder.ParseStat: `hasattr` would also accept `to_dict` and Python's special attribute names. Training on them would fail at the addition in the source. The model recognises exactly the nine stat fields.
- `type(x).__name__` is modelled by the `NinjaClass` tag of each ninja. There are no subclasses beyond the six the repository defines.
- Factory.UseJutsu: the success text of `use_jutsu` (`CreateJutsu.execute`, FactoryAbstractNaruto.py:36) is left out. It calls `user.get_name()`, which `BaseNinja` does not define, so in the source `use_jutsu` raises `AttributeError` for every name it finds. `UseJutsu` returns the jutsu that would be performed instead; only its not-known branch matches what the source returns.
- `Stats.to_dict`, `FinalNinja.to_dict` and `FinalNinja.__str__` are display helpers and are left out.
- Missions.MissionManager.Assign: returns an outcome naming the ninja and the mission instead of the formatted message strings.
- Training.TrainNinja: `TrainingSystem` has no state, so `train_ninja` is a module-level method. It returns an outcome instead of printing.
- Python's dynamic typing is not modelled: setters take the declared types, and the name, rank and similar fields are optional strings.
- The exported village of a builder-built ninja is "Final", not its village field. That is what `type(ninja).__name__.replace("Ninja", "")` gives, and the model follows the code.
- The code has no `list_by_rank`, gives no village its own baseline stats, and does not check that mission ids are unique, so none of these is modelled. `makeNinja` also calls `setChakra`, and the model does the same.
