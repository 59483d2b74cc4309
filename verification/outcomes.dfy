/**
 Properties of the play engine that relate construction and resolution across
 all possible draws: which outcomes each kind of play can produce (exactly,
 in both directions), how many of the possible distance draws set each flag,
 and worked boundary cases.
 */
module Outcomes {
  import opened Wrappers
  import opened Draws
  import opened PlayTypes

  // ---------------------------------------------------------------------------
  // Reachable outcomes

  /** A pass can end in any yardage in [-5, 20], with or without a turnover,
      and in nothing else. */
  lemma {:induction false} PassOutcomesExact(o: Outcome)
    ensures (exists call, yards, turnover :: PassYardsDraw(call, yards) && RandInt(turnover, 0, 99)
               && SimPass(call, yards, turnover) == o)
            <==> -5 <= o.ydsGained <= 20
  {
    if -5 <= o.ydsGained <= 20 {
      var call := if o.ydsGained < 0 then PassCall else RunCall;
      var turnover := if o.changeOfPossession then 0 else 5;
      assert SimPass(call, o.ydsGained, turnover) == o;
    }
  }

  /** A rush can end in any yardage in [-5, 10], with or without a turnover,
      and in nothing else. */
  lemma {:induction false} RushOutcomesExact(o: Outcome)
    ensures (exists call, yards, turnover :: RushYardsDraw(call, yards) && RandInt(turnover, 0, 99)
               && SimRush(call, yards, turnover) == o)
            <==> -5 <= o.ydsGained <= 10
  {
    if -5 <= o.ydsGained <= 10 {
      var call := if o.ydsGained < 0 then RunCall else PassCall;
      var turnover := if o.changeOfPossession then 0 else 5;
      assert SimRush(call, o.ydsGained, turnover) == o;
    }
  }

  /** Over all kick and return draws, a kickoff gains exactly the yardages in
      [10, 65]; the touchback's 40 lies inside that range. */
  lemma {:induction false} KickoffYardsExact(y: int)
    ensures (exists duration, kicked, ret :: DurationDraw(duration) && RandInt(kicked, 40, 80) && RandInt(ret, 0, 30)
               && Sim(NewKick(duration, kicked), ReturnDraw(ret)).ydsGained == Some(y))
            <==> 10 <= y <= 65
  {
    if 10 <= y <= 65 {
      var kicked := if y < 40 then 40 else y;
      assert Sim(NewKick(5, kicked), ReturnDraw(kicked - y)).ydsGained == Some(y);
    }
  }

  /** Over all punt and return draws, a punt from ytg yards out gains
      ytg - 25 when a touchback is possible (ytg < 60), and, when a punt can
      stay in the field of play (ytg >= 30), every yardage from 0 up to
      min(ytg, 60); nothing else. */
  lemma {:induction false} PuntYardsExact(ytg: int, y: int)
    ensures (exists duration, punted, ret :: DurationDraw(duration) && RandInt(punted, 30, 60) && RandInt(ret, 0, 30)
               && Sim(NewPunt(ytg, duration, punted), ReturnDraw(ret)).ydsGained == Some(y))
            <==> (ytg < 60 && y == ytg - 25) || (30 <= ytg && 0 <= y <= Min(ytg, 60))
  {
    if ytg < 60 && y == ytg - 25 {
      assert Sim(NewPunt(ytg, 5, 60), ReturnDraw(0)).ydsGained == Some(y);
    } else if 30 <= ytg && 0 <= y <= Min(ytg, 60) {
      var punted := Max(30, y);
      assert Sim(NewPunt(ytg, 5, punted), ReturnDraw(punted - y)).ydsGained == Some(y);
    }
  }

  /** A punt from inside 30 yards is always a touchback, and one from 60 or
      more never is. */
  lemma PuntTouchbackCertainty(ytg: int, duration: int, punted: int)
    requires DurationDraw(duration) && RandInt(punted, 30, 60)
    ensures ytg < 30 ==> NewPunt(ytg, duration, punted).variant.touchback
    ensures ytg >= 60 ==> !NewPunt(ytg, duration, punted).variant.touchback
  {
  }

  // ---------------------------------------------------------------------------
  // How many draws set each flag

  /** Of the 41 kickoff distances 40..80, the 15 from 66 to 80 are touchbacks. */
  lemma KickTouchbackDrawCount()
    ensures RangeSize(40, 80) == 41
    ensures CountWhere(40, 80, KickTouchback) == 15
  {
    CountAbove(40, 80, 65, KickTouchback);
  }

  /** Of the 31 punt distances 30..60, those beyond the goal line are
      touchbacks: none from 60 or more yards out, all 31 from inside 30. */
  lemma PuntTouchbackDrawCount(ytg: int)
    ensures CountWhere(30, 60, d => PuntTouchback(d, ytg)) == RangeSize(Max(30, ytg + 1), 60)
    ensures ytg >= 60 ==> CountWhere(30, 60, d => PuntTouchback(d, ytg)) == 0
    ensures ytg < 30 ==> CountWhere(30, 60, d => PuntTouchback(d, ytg)) == 31
  {
    CountAbove(30, 60, ytg, d => PuntTouchback(d, ytg));
  }

  /** Of the 31 field-goal distances 30..60, those longer than ytg + 17 are
      good: every one from inside 13 yards, none from 43 or more. */
  lemma FieldGoalMadeDrawCount(ytg: int)
    ensures CountWhere(30, 60, k => FieldGoalMade(k, ytg)) == RangeSize(Max(30, ytg + 18), 60)
    ensures ytg >= 43 ==> CountWhere(30, 60, k => FieldGoalMade(k, ytg)) == 0
    ensures ytg < 13 ==> CountWhere(30, 60, k => FieldGoalMade(k, ytg)) == 31
  {
    CountAbove(30, 60, ytg + 17, k => FieldGoalMade(k, ytg));
  }

  // ---------------------------------------------------------------------------
  // Construction and resolution together

  /** Duration is drawn once at construction: every constructed play has it in
      [5, 15], and simulating keeps it and every construction-time field. */
  lemma DurationFixedAtConstruction(p: Play, d: SimDraws)
    requires Constructed(p) && DrawsFit(p.variant, d)
    ensures 5 <= Sim(p, d).duration <= 15
    ensures Sim(p, d).duration == p.duration && Sim(p, d).variant == p.variant
  {
  }

  /** A field goal's outcome does not depend on whether it was good. */
  lemma FieldGoalOutcomeIgnoresMade(ytg: int, duration: int, kicked: int)
    requires DurationDraw(duration) && RandInt(kicked, 30, 60)
    ensures Sim(NewFieldGoal(ytg, duration, kicked), NoDraws).ydsGained == Some(0)
    ensures Sim(NewFieldGoal(ytg, duration, kicked), NoDraws).changeOfPossession
    ensures Sim(NewFieldGoal(ytg, duration, kicked), NoDraws).variant.made <==> kicked > ytg + 17
  {
  }

  /** The play-type label tells the kinds of play apart. */
  lemma PlayTypeIdentifiesKind(a: Variant, b: Variant)
    ensures PlayType(a) == PlayType(b) <==>
              (a.Pass? && b.Pass?) || (a.Rush? && b.Rush?) || (a.Kick? && b.Kick?)
              || (a.Punt? && b.Punt?) || (a.FieldGoal? && b.FieldGoal?)
  {
  }

  // ---------------------------------------------------------------------------
  // Worked scenarios and boundaries

  /** A 65-yard kickoff is returned; a 66-yard one is a touchback worth 40. */
  lemma KickoffBoundary()
    ensures !NewKick(10, 65).variant.touchback
    ensures Sim(NewKick(10, 65), ReturnDraw(20)).ydsGained == Some(45)
    ensures NewKick(10, 66).variant.touchback
    ensures Sim(NewKick(10, 66), ReturnDraw(20)).ydsGained == Some(40)
  {
  }

  /** A 45-yard punt from 40 yards out is a touchback gaining 15; a 40-yard
      punt from there lands on the goal line and is not. */
  lemma PuntScenario()
    ensures NewPunt(40, 10, 45).variant.touchback
    ensures Sim(NewPunt(40, 10, 45), ReturnDraw(12)) == Play(Punt(45, 40, true), Some(15), 10, true)
    ensures !NewPunt(40, 10, 40).variant.touchback
  {
  }

  /** From 30 yards out a 48-yard kick is good and a 47-yard kick is not. */
  lemma FieldGoalScenario()
    ensures NewFieldGoal(30, 10, 48).variant.made
    ensures !NewFieldGoal(30, 10, 47).variant.made
    ensures Sim(NewFieldGoal(30, 10, 48), NoDraws) == Play(FieldGoal(48, true), Some(0), 10, true)
    ensures Sim(NewFieldGoal(30, 10, 47), NoDraws) == Play(FieldGoal(47, false), Some(0), 10, true)
  {
  }
}
