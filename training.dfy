/**
  Training a ninja's stats (Training.py).

  `TrainingSystem` has no state of its own, so its one operation is a module-level method.
  It changes the ninja's `Stats` object in place and, instead of printing, reports what it
  did.
*/
module Training {
  import opened Wrappers
  import opened Builder

  /** The stat block after `points` (possibly negative) are added to stat `s`. */
  function TrainStat(b: StatBlock, s: StatName, points: int): StatBlock {
    b.With(s, b.Get(s) + points)
  }

  /** Exactly the trained stat moves, by exactly `points`, with no clamping either way. */
  lemma TrainStatChangesOnlyThatStat(b: StatBlock, s: StatName, points: int, t: StatName)
    ensures TrainStat(b, s, points).Get(s) == b.Get(s) + points
    ensures t != s ==> TrainStat(b, s, points).Get(t) == b.Get(t)
  {
    GetWith(b, s, b.Get(s) + points, t);
  }

  /** Training by `p` and then by `q` is training once by `p + q`. */
  lemma TrainStatAdditive(b: StatBlock, s: StatName, p: int, q: int)
    ensures TrainStat(TrainStat(b, s, p), s, q) == TrainStat(b, s, p + q)
  {
    forall t ensures TrainStat(TrainStat(b, s, p), s, q).Get(t) == TrainStat(b, s, p + q).Get(t) {
      TrainStatChangesOnlyThatStat(b, s, p, t);
      TrainStatChangesOnlyThatStat(TrainStat(b, s, p), s, q, t);
      TrainStatChangesOnlyThatStat(b, s, p + q, t);
    }
    StatBlockExtensionality(TrainStat(TrainStat(b, s, p), s, q), TrainStat(b, s, p + q));
  }

  /** What `train_ninja` reports. */
  datatype TrainOutcome =
    | Trained(stat: StatName, before: int, after: int)
    | UnknownAttribute(attribute: string)

  /**
    `train_ninja`: if `attribute` names one of the nine stats, add `points` to it in the
    ninja's stats object; otherwise change nothing. The ninja's own fields never change.
  */
  method TrainNinja(ninja: FinalNinja, attribute: string, points: int) returns (o: TrainOutcome)
    modifies ninja.stats
    ensures ninja.stats == old(ninja.stats) && ninja.Profile() == old(ninja.Profile())
    ensures ParseStat(attribute).Some? ==>
      var s := ParseStat(attribute).value;
      && ninja.stats.Block() == TrainStat(old(ninja.stats.Block()), s, points)
      && o == Trained(s, old(ninja.stats.Get(s)), old(ninja.stats.Get(s)) + points)
    ensures ParseStat(attribute).None? ==>
      ninja.stats.Block() == old(ninja.stats.Block()) && o == UnknownAttribute(attribute)
  {
    match ParseStat(attribute)
    case Some(s) =>
      var current := ninja.stats.Get(s);
      var updated := current + points;
      ninja.stats.Set(s, updated);
      o := Trained(s, current, updated);
    case None =>
      o := UnknownAttribute(attribute);
  }
}
