/** Planning levels and opening stock of a material-plant (data-generator/generate.py,
    `build_material_plant`). */
module Planning {
  import opened Rounding

  datatype Story =
    HighConsumption | Intermittent | SlowMoving | Overstocked | UnderstockedCritical | LongLead | OnDemand | Repairable | Obsolete

  function Larger(x: real, y: real): real {
    if x <= y then y else x
  }

  function Scaled(x: real, factor: real): real {
    x * factor
  }

  /** Python's `round(x, 3)`. */
  function Round3(x: real): real {
    Round(x * 1000.0) as real / 1000.0
  }

  lemma Round3Keeps(x: real, y: real)
    requires 0.0 <= x <= y
    ensures 0.0 <= Round3(x) <= Round3(y) && Round3(Round3(x)) == Round3(x)
  {
    RoundOfInt(0);
    RoundMonotone(0.0, x * 1000.0);
    RoundMonotone(x * 1000.0, y * 1000.0);
    RoundOfInt(Round(x * 1000.0));
  }

  /** Sound levels worked out from the demand, and what is drawn to make them imperfect. */
  datatype Drawn = Drawn(safety: real, rop: real, maximum: real, mean: real, drift: real, maximumDrift: real,
                         under: real, over: real, stale: real, months: real)
  {
    predicate Valid() {
      && safety >= 0.0 && rop >= 0.0 && maximum >= 0.0 && mean >= 0.0
      && 0.4 <= drift <= 1.8 && 0.7 <= maximumDrift <= 1.8
      && 0.1 <= under <= 0.5 && 1.4 <= over <= 3.0 && 5.0 <= stale <= 40.0 && 1.5 <= months <= 4.0
    }
  }

  datatype Levels = Levels(eisbe: real, minbe: real, mabst: real)

  function LevelsOf(story: Story, oar: bool, d: Drawn): Levels {
    if oar then Levels(0.0, 0.0, 0.0)
    else if story == Obsolete then Levels(0.0, 0.0, Round3(Larger(1.0, Scaled(d.maximum, 0.4))))
    else
      var eisbe := Round3(Larger(0.0, Scaled(d.safety, d.drift)));
      var minbe := Round3(Larger(eisbe, Scaled(d.rop, d.drift)));
      Levels(eisbe, minbe, Round3(Larger(minbe, Scaled(d.maximum, d.maximumDrift))))
  }

  function Opening(story: Story, oar: bool, d: Drawn): int {
    var levels := LevelsOf(story, oar, d);
    if story == UnderstockedCritical then Round(Larger(0.0, Scaled(levels.minbe, d.under)))
    else if story == Overstocked then Round(Larger(1.0, Scaled(levels.mabst, d.over)))
    else if oar then 0
    else if story == Obsolete then Round(d.stale)
    else Round(Larger(levels.minbe, Scaled(d.mean, d.months)))
  }

  predicate Replenishes(story: Story, levels: Levels) {
    levels.minbe > 0.0 && story != UnderstockedCritical
  }

  lemma DriftedOrdered(safety: real, rop: real, maximum: real)
    ensures var eisbe := Round3(Larger(0.0, safety));
            var minbe := Round3(Larger(eisbe, rop));
            0.0 <= eisbe <= minbe <= Round3(Larger(minbe, maximum))
  {
    hide Round3;
    var s0 := Larger(0.0, safety);
    var eisbe := Round3(s0);
    Round3Keeps(s0, s0);
    var s1 := Larger(eisbe, rop);
    var minbe := Round3(s1);
    Round3Keeps(eisbe, s1);
    Round3Keeps(s1, s1);
    Round3Keeps(minbe, Larger(minbe, maximum));
  }

  /** Safety stock, reorder point and maximum keep their order through drift and rounding. */
  lemma LevelsOrdered(story: Story, oar: bool, d: Drawn)
    ensures var l := LevelsOf(story, oar, d); 0.0 <= l.eisbe <= l.minbe <= l.mabst
  {
    hide Round3, Scaled;
    if !oar && story == Obsolete {
      var x := Larger(1.0, Scaled(d.maximum, 0.4));
      Round3Keeps(0.0, x);
      RoundOfInt(0);
      assert Round3(0.0) == 0.0 by { RoundsZero(); }
    } else if !oar {
      DriftedOrdered(Scaled(d.safety, d.drift), Scaled(d.rop, d.drift), Scaled(d.maximum, d.maximumDrift));
    }
  }

  lemma RoundsZero()
    ensures Round3(0.0) == 0.0
  {
    RoundOfInt(0);
  }

  lemma RoundNotNegative(x: real)
    requires x >= 0.0
    ensures Round(x) >= 0 && x - 0.5 <= Round(x) as real <= x + 0.5
  {
    RoundOfInt(0);
    RoundMonotone(0.0, x);
    RoundIsNear(x);
  }

  lemma HalfAtMost(minbe: real, under: real)
    requires minbe >= 0.0 && 0.1 <= under <= 0.5
    ensures 0.0 <= Scaled(minbe, under) <= minbe * 0.5
  {
  }

  /** `x` is the larger of the two, give or take `off`. */
  ghost predicate NearLarger(x: real, a: real, b: real, off: real) {
    x + off >= a && x + off >= b && (x - off <= a || x - off <= b)
  }

  ghost predicate InThousandths(x: real) {
    x * 1000.0 == (x * 1000.0).Floor as real
  }

  lemma Round3Near(a: real, b: real)
    ensures NearLarger(Round3(Larger(a, b)), a, b, 0.0005) && InThousandths(Round3(Larger(a, b)))
  {
    var x := Larger(a, b) * 1000.0;
    RoundIsNear(x);
    var n := Round(x);
    hide Round;
    assert Round3(Larger(a, b)) * 1000.0 == n as real;
  }

  lemma RoundNear(a: real, b: real)
    ensures NearLarger(Round(Larger(a, b)) as real, a, b, 0.5)
  {
    RoundIsNear(Larger(a, b));
  }

  /** The levels are what was drawn: none in OAR scope; for obsolete stock a maximum alone, two fifths of the sound
      one or 1; otherwise each the larger of the level below it and the sound one with its drift. All are
      rounded to thousandths. */
  lemma LevelsAsDrawn(story: Story, oar: bool, d: Drawn)
    ensures var l := LevelsOf(story, oar, d);
            && (oar ==> l.eisbe == l.minbe == l.mabst == 0.0)
            && (!oar && story == Obsolete ==> l.eisbe == l.minbe == 0.0 && NearLarger(l.mabst, 1.0, d.maximum * 0.4, 0.0005))
            && (!oar && story != Obsolete ==>
                  && NearLarger(l.eisbe, 0.0, d.safety * d.drift, 0.0005)
                  && NearLarger(l.minbe, l.eisbe, d.rop * d.drift, 0.0005)
                  && NearLarger(l.mabst, l.minbe, d.maximum * d.maximumDrift, 0.0005))
            && InThousandths(l.eisbe) && InThousandths(l.minbe) && InThousandths(l.mabst)
  {
    ScaledIs(d);
    hide Round3, Scaled, NearLarger, Larger;
    assert InThousandths(0.0);
    hide InThousandths;
    if !oar && story == Obsolete {
      Round3Near(1.0, Scaled(d.maximum, 0.4));
    } else if !oar {
      Round3Near(0.0, Scaled(d.safety, d.drift));
      var eisbe := Round3(Larger(0.0, Scaled(d.safety, d.drift)));
      Round3Near(eisbe, Scaled(d.rop, d.drift));
      var minbe := Round3(Larger(eisbe, Scaled(d.rop, d.drift)));
      Round3Near(minbe, Scaled(d.maximum, d.maximumDrift));
    }
  }

  lemma ScaledIs(d: Drawn)
    ensures Scaled(d.maximum, 0.4) == d.maximum * 0.4 && Scaled(d.safety, d.drift) == d.safety * d.drift
    ensures Scaled(d.rop, d.drift) == d.rop * d.drift && Scaled(d.maximum, d.maximumDrift) == d.maximum * d.maximumDrift
    ensures Scaled(d.mean, d.months) == d.mean * d.months
  {
  }

  /** And so is the opening stock, rounded to a unit: part of the reorder point for what is to look short, more
      than the maximum for what is to look overstocked, none in OAR scope, what was drawn for obsolete stock,
      and otherwise the reorder point or some months' demand. A plant replenishes if it has a reorder point
      and is not to look short. */
  lemma OpeningAsDrawn(story: Story, oar: bool, d: Drawn)
    ensures var l, opening := LevelsOf(story, oar, d), Opening(story, oar, d) as real;
            && (story == UnderstockedCritical ==> NearLarger(opening, 0.0, Scaled(l.minbe, d.under), 0.5))
            && (story == Overstocked ==> NearLarger(opening, 1.0, Scaled(l.mabst, d.over), 0.5))
            && (oar && story !in {UnderstockedCritical, Overstocked} ==> opening == 0.0)
            && (!oar && story == Obsolete ==> d.stale - 0.5 <= opening <= d.stale + 0.5)
            && (!oar && story !in {UnderstockedCritical, Overstocked, Obsolete} ==>
                  NearLarger(opening, l.minbe, Scaled(d.mean, d.months), 0.5))
            && (Replenishes(story, l) <==> l.minbe > 0.0 && story != UnderstockedCritical)
  {
    hide LevelsOf, Scaled, NearLarger, Larger;
    var l := LevelsOf(story, oar, d);
    RoundNear(0.0, Scaled(l.minbe, d.under));
    RoundNear(1.0, Scaled(l.mabst, d.over));
    RoundNear(l.minbe, Scaled(d.mean, d.months));
    RoundIsNear(d.stale);
    hide Round;
  }

  /** Nothing opens below zero. What is replenished opens at its reorder point, up to the rounding, and
      what is to look short opens at half of it at most; an on-demand plant opens empty. */
  lemma OpeningFits(story: Story, oar: bool, d: Drawn)
    requires d.Valid() && (oar ==> story == OnDemand)
    ensures Opening(story, oar, d) >= 0 && (oar ==> Opening(story, oar, d) == 0)
    ensures !oar && story != UnderstockedCritical && story != Overstocked ==>
              Opening(story, oar, d) as real >= LevelsOf(story, oar, d).minbe - 0.5
    ensures story == UnderstockedCritical ==>
              Opening(story, oar, d) as real <= LevelsOf(story, oar, d).minbe * 0.5 + 0.5
  {
    LevelsOrdered(story, oar, d);
    hide Round, LevelsOf, Scaled;
    var l := LevelsOf(story, oar, d);
    if story == UnderstockedCritical {
      HalfAtMost(l.minbe, d.under);
      RoundNotNegative(Larger(0.0, Scaled(l.minbe, d.under)));
    } else if story == Overstocked {
      RoundNotNegative(Larger(1.0, Scaled(l.mabst, d.over)));
    } else if oar {
    } else if story == Obsolete {
      RoundNotNegative(d.stale);
      assert l.minbe == 0.0 by { StaleHasNoReorderPoint(d); }
    } else {
      RoundNotNegative(Larger(l.minbe, Scaled(d.mean, d.months)));
    }
  }

  lemma StaleHasNoReorderPoint(d: Drawn)
    ensures LevelsOf(Obsolete, false, d).minbe == 0.0
  {
  }
}
