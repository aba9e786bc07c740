/**
  The repository's example scripts, replayed against the contracts of the other modules:
  each method states the outcomes the example's comments expect and proves them from those
  contracts alone.
*/
module Scenarios {
  import opened Wrappers
  import opened Factory
  import opened Builder
  import opened Missions
  import opened Training
  import opened Export

  /**
    The examples' Genin: Naruto Uzumaki, as a village's director builds him from a stats
    object the caller keeps. The ninja holds that very object, unchanged.
  */
  method BuildNaruto(village: Village, stats: Stats) returns (naruto: FinalNinja)
    ensures naruto.name == Some("Naruto") && naruto.rank == Some("Genin")
    ensures naruto.stats == stats && stats.Block() == old(stats.Block())
  {
    var director := new Director(village);
    var builder := new NinjaBuilder();
    naruto := director.MakeNinja(builder, "Naruto", "Genin", 1000, "Uzumaki",
                                 "Multi-clones", "Kunai", stats);
  }

  /** The mission ids the board example looks up, and the ranks a Genin may take. */
  lemma MissionBoardFacts()
    ensures "M01" != "M02" && "M01" != "M03" && "M02" != "M03"
    ensures "M04" != "M01" && "M04" != "M02" && "M04" != "M03"
    ensures RankFromString("Genin") == Some(Genin)
  {
  }

  /**
    A Genin on a board with a D, a C and an S mission: the D and C missions are accepted,
    the S mission is refused for rank, and an unknown id is not found.
  */
  method MissionBoardExample(naruto: FinalNinja) returns (onD: AssignOutcome, onC: AssignOutcome,
                                                          onS: AssignOutcome, onUnknown: AssignOutcome)
    requires naruto.name == Some("Naruto") && naruto.rank == Some("Genin")
    ensures onD == Accepted(Some("Naruto"), "Encontrar al gato Tora")
    ensures onC == Accepted(Some("Naruto"), "Proteger al constructor de puentes")
    ensures onS == RankInsufficient(Some("Naruto"), "Infiltrarse en la base Akatsuki")
    ensures onUnknown == MissionNotFound
  {
    MissionBoardFacts();
    var board := new MissionManager();
    var m1 := Mission("M01", "Encontrar al gato Tora", D, 100,
                      "El gato de la esposa del Feudal se ha perdido de nuevo.");
    var m2 := Mission("M02", "Proteger al constructor de puentes", C, 500,
                      "Escolta a Tazuna a la Tierra de las Olas.");
    var m3 := Mission("M03", "Infiltrarse en la base Akatsuki", S, 10000,
                      "Misión de alto riesgo de espionaje y sabotaje.");
    board.AddMission(m1);
    board.AddMission(m2);
    board.AddMission(m3);
    assert board.missions == [m1, m2, m3];

    onD := board.Assign(naruto, "M01");
    assert IsFirstWithId(board.missions, "M01", 0);
    onC := board.Assign(naruto, "M02");
    assert IsFirstWithId(board.missions, "M02", 1);
    onS := board.Assign(naruto, "M03");
    assert IsFirstWithId(board.missions, "M03", 2);
    onUnknown := board.Assign(naruto, "M04");
  }

  /** The attribute names the training example uses: three stats and one non-stat. */
  lemma TrainingAttributes()
    ensures ParseStat("Ninjutsu") == Some(Ninjutsu) && ParseStat("Genjutsu") == Some(Genjutsu)
    ensures ParseStat("Taijutsu") == Some(Taijutsu) && ParseStat("Cocina") == None
  {
  }

  /**
    Train a Genin whose stats object holds Ninjutsu 80, Taijutsu 50 and Willpower 95:
    Ninjutsu goes to 90, Genjutsu from 0 to 5, "Cocina" is not a stat, Taijutsu goes to 65.
    The stats object the caller handed to the director sees the same changes.
  */
  method TrainingExample(naruto: FinalNinja, stats: Stats)
    returns (first: TrainOutcome, second: TrainOutcome, third: TrainOutcome, fourth: TrainOutcome)
    requires naruto.stats == stats
    requires stats.Block() == ZeroStats.(ninjutsu := 80, taijutsu := 50, willpower := 95)
    modifies stats
    ensures first == Trained(Ninjutsu, 80, 90)
    ensures second == Trained(Genjutsu, 0, 5)
    ensures third == UnknownAttribute("Cocina")
    ensures fourth == Trained(Taijutsu, 50, 65)
    ensures stats.Block() == ZeroStats.(ninjutsu := 90, genjutsu := 5, taijutsu := 65,
                                        willpower := 95)
  {
    TrainingAttributes();
    var start := stats.Block();
    first := TrainNinja(naruto, "Ninjutsu", 10);
    assert stats.Block() == start.(ninjutsu := 90);
    second := TrainNinja(naruto, "Genjutsu", 5);
    assert stats.Block() == start.(ninjutsu := 90, genjutsu := 5);
    third := TrainNinja(naruto, "Cocina", 20);
    assert stats.Block() == start.(ninjutsu := 90, genjutsu := 5);
    fourth := TrainNinja(naruto, "Taijutsu", 15);
  }

  /** The training example end to end: build Naruto from a fresh stats object, then train him. */
  method TrainingRun(village: Village) returns (callerStats: StatBlock)
    ensures callerStats == ZeroStats.(ninjutsu := 90, genjutsu := 5, taijutsu := 65,
                                      willpower := 95)
  {
    var stats := new Stats();
    stats.Set(Ninjutsu, 80);
    stats.Set(Taijutsu, 50);
    stats.Set(Willpower, 95);
    var naruto := BuildNaruto(village, stats);
    var _, _, _, _ := TrainingExample(naruto, stats);
    callerStats := stats.Block();
  }

  /** The mission example end to end: build Naruto, then put him on the mission board. */
  method MissionBoardRun(village: Village) returns (onD: AssignOutcome, onC: AssignOutcome,
                                                    onS: AssignOutcome)
    ensures onD == Accepted(Some("Naruto"), "Encontrar al gato Tora")
    ensures onC == Accepted(Some("Naruto"), "Proteger al constructor de puentes")
    ensures onS == RankInsufficient(Some("Naruto"), "Infiltrarse en la base Akatsuki")
  {
    var stats := new Stats();
    stats.Set(Ninjutsu, 90);
    stats.Set(Willpower, 100);
    var naruto := BuildNaruto(village, stats);
    var onUnknown;
    onD, onC, onS, onUnknown := MissionBoardExample(naruto);
  }

  /** The first record Konoha's ninja exports is Rasengan's, with its cost of 30. */
  lemma KonohaFirstJutsuRecord()
    ensures |ExportJutsus(JutsuSet(Konoha))| == 2
    ensures ExportJutsus(JutsuSet(Konoha))[0] ==
      JutsuRecord("Rasengan", "Esfera de chakra concentrado", 30)
  {
  }

  /**
    Export the factory ninjas of three villages (the example uses Konoha, Suna and Kiri)
    and three missions: three ninja records labelled with their villages, each with its
    factory's jutsus, and three mission records with rank names C, A and S, all in input
    order.
  */
  method ExportExample(first: Village, second: Village, third: Village) returns (data: ExportData)
    ensures |data.ninjas| == 3 && |data.missions| == 3
    ensures data.ninjas[0].village == VillageName(first)
    ensures data.ninjas[1].village == VillageName(second)
    ensures data.ninjas[2].village == VillageName(third)
    ensures data.ninjas[0].jutsus == Records(ExportJutsus(JutsuSet(first)))
    ensures data.missions[0].requiredRank == "C" && data.missions[1].requiredRank == "A"
    ensures data.missions[2].requiredRank == "S" && data.missions[2].reward == 5000
  {
    var ninjas := [BaseVisit(CreateNinja(first)), BaseVisit(CreateNinja(second)),
                   BaseVisit(CreateNinja(third))];
    var missions := [
      Mission("M001", "Proteger al Puente", C, 500, "Defender al constructor de un puente."),
      Mission("M002", "Capturar espía", A, 1200, "Atrapar al espía en territorio enemigo."),
      Mission("M003", "Defender Konoha", S, 5000, "Proteger la aldea de un ataque enemigo.")
    ];
    var exporter := new JSONExportVisitor();
    data := ExportAll(exporter, ninjas, missions);
    ExportBaseNinjaFields(CreateNinja(first));
    ExportBaseNinjaFields(CreateNinja(second));
    ExportBaseNinjaFields(CreateNinja(third));
  }
}
