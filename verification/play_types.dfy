/**
 The play-resolution engine: five kinds of play, each resolved in two phases.

 Construction fixes the duration and, for the kicking plays, the kick distance
 and the flag derived from it (touchback, or a made field goal). `Sim` then
 draws what is left and fills in the yards gained and whether possession
 changes. Every random draw is an argument whose range is a precondition.
 */
module PlayTypes {
  import opened Wrappers
  import opened Draws

  /** The construction-time fields of each kind of play. A field goal keeps its
      distance and whether it is good, but not the yards to goal it was built from. */
  datatype Variant =
    | Pass
    | Rush
    | Kick(ydsKicked: int, touchback: bool)
    | Punt(ydsPunted: int, ydsToGoal: int, touchback: bool)
    | FieldGoal(ydsKicked: int, made: bool)

  /** A play: its variant, the outcome fields (yards gained is None until the
      play is simulated) and its duration, a whole number from 5 to 15 whose
      unit the code does not state. */
  datatype Play = Play(variant: Variant, ydsGained: Option<int>, duration: int, changeOfPossession: bool)

  /** What resolving a play decides. */
  datatype Outcome = Outcome(ydsGained: int, changeOfPossession: bool)

  /** The draws `sim` makes: a defensive call, a yardage and a turnover index
      for a pass or a rush; a return distance for a kickoff or a punt; nothing
      for a field goal. */
  datatype SimDraws =
    | LiveDraws(call: DefensiveCall, yards: int, turnover: int)
    | ReturnDraw(returnYds: int)
    | NoDraws

  /** The label each kind of play records as its play type. */
  function PlayType(v: Variant): string {
    match v
    case Pass => "pass"
    case Rush => "rush"
    case Kick(_, _) => "kickoff"
    case Punt(_, _, _) => "punt"
    case FieldGoal(_, _) => "field goal"
  }

  // ---------------------------------------------------------------------------
  // Construction

  /** The drawn duration of any play. */
  predicate DurationDraw(duration: int) {
    RandInt(duration, 5, 15)
  }

  /** A kickoff longer than 65 yards is a touchback; 65 itself is not. */
  predicate KickTouchback(ydsKicked: int) {
    ydsKicked > 65
  }

  /** A punt longer than the distance to the goal line is a touchback. */
  predicate PuntTouchback(ydsPunted: int, ydsToGoal: int) {
    ydsPunted > ydsToGoal
  }

  /** A field goal is good when the kick carries more than the distance to the
      goal line plus 17 yards of snap and end zone. */
  predicate FieldGoalMade(ydsKicked: int, ydsToGoal: int) {
    ydsKicked > ydsToGoal + 17
  }

  /** A play that has not been simulated yet. */
  predicate Unresolved(p: Play) {
    p.ydsGained.None? && !p.changeOfPossession
  }

  /** What construction guarantees of every play it builds: a duration in
      [5, 15] and, for a kicking play, a distance in the range it is drawn from
      with the derived flag consistent with it. */
  predicate Constructed(p: Play) {
    DurationDraw(p.duration) && VariantConstructed(p.variant)
  }

  /** The part of Constructed that concerns the variant's own fields. */
  predicate VariantConstructed(v: Variant) {
    match v
      case Pass => true
      case Rush => true
      case Kick(k, tb) => RandInt(k, 40, 80) && tb == KickTouchback(k)
      case Punt(d, ytg, tb) => RandInt(d, 30, 60) && tb == PuntTouchback(d, ytg)
      case FieldGoal(k, _) => RandInt(k, 30, 60)
  }

  /** The base constructor every kind of play runs first. */
  function NewPlay(variant: Variant, duration: int): (p: Play)
    requires DurationDraw(duration)
    ensures Unresolved(p)
    ensures p.variant == variant && p.duration == duration
  {
    Play(variant, None, duration, false)
  }

  function NewPass(duration: int): (p: Play)
    requires DurationDraw(duration)
    ensures Constructed(p) && Unresolved(p)
    ensures p.variant.Pass? && PlayType(p.variant) == "pass"
    ensures p.duration == duration
  {
    NewPlay(Pass, duration)
  }

  function NewRush(duration: int): (p: Play)
    requires DurationDraw(duration)
    ensures Constructed(p) && Unresolved(p)
    ensures p.variant.Rush? && PlayType(p.variant) == "rush"
    ensures p.duration == duration
  {
    NewPlay(Rush, duration)
  }

  function NewKick(duration: int, ydsKicked: int): (p: Play)
    requires DurationDraw(duration) && RandInt(ydsKicked, 40, 80)
    ensures Constructed(p) && Unresolved(p)
    ensures p.variant.Kick? && PlayType(p.variant) == "kickoff"
    ensures p.duration == duration
    ensures p.variant.ydsKicked == ydsKicked
    ensures p.variant.touchback <==> ydsKicked > 65
  {
    NewPlay(Kick(ydsKicked, KickTouchback(ydsKicked)), duration)
  }

  /** yds_to_goal is taken as given: no range is imposed on it. */
  function NewPunt(ydsToGoal: int, duration: int, ydsPunted: int): (p: Play)
    requires DurationDraw(duration) && RandInt(ydsPunted, 30, 60)
    ensures Constructed(p) && Unresolved(p)
    ensures p.variant.Punt? && PlayType(p.variant) == "punt"
    ensures p.duration == duration
    ensures p.variant.ydsPunted == ydsPunted && p.variant.ydsToGoal == ydsToGoal
    ensures p.variant.touchback <==> ydsPunted > ydsToGoal
  {
    NewPlay(Punt(ydsPunted, ydsToGoal, PuntTouchback(ydsPunted, ydsToGoal)), duration)
  }

  /** yds_to_goal is taken as given and only used to decide whether the kick is good. */
  function NewFieldGoal(ydsToGoal: int, duration: int, ydsKicked: int): (p: Play)
    requires DurationDraw(duration) && RandInt(ydsKicked, 30, 60)
    ensures Constructed(p) && Unresolved(p)
    ensures p.variant.FieldGoal? && PlayType(p.variant) == "field goal"
    ensures p.duration == duration
    ensures p.variant.ydsKicked == ydsKicked
    ensures p.variant.made <==> ydsKicked > ydsToGoal + 17
  {
    NewPlay(FieldGoal(ydsKicked, FieldGoalMade(ydsKicked, ydsToGoal)), duration)
  }

  // ---------------------------------------------------------------------------
  // Resolution

  /** The yardage randint a pass draws: [-5, 5] when the defence read pass, [0, 20] when it read run. */
  predicate PassYardsDraw(call: DefensiveCall, yards: int) {
    if call == PassCall then RandInt(yards, -5, 5) else RandInt(yards, 0, 20)
  }

  /** The yardage randint a rush draws: [-5, 5] when the defence read run, [0, 10] when it read pass. */
  predicate RushYardsDraw(call: DefensiveCall, yards: int) {
    if call == RunCall then RandInt(yards, -5, 5) else RandInt(yards, 0, 10)
  }

  function SimPass(call: DefensiveCall, yards: int, turnover: int): (o: Outcome)
    requires PassYardsDraw(call, yards) && RandInt(turnover, 0, 99)
    ensures o.ydsGained == yards
    ensures call == PassCall ==> -5 <= o.ydsGained <= 5
    ensures call == RunCall ==> 0 <= o.ydsGained <= 20
    ensures -5 <= o.ydsGained <= 20
    ensures o.changeOfPossession <==> turnover < 5
  {
    Outcome(yards, TurnoverAt(turnover))
  }

  function SimRush(call: DefensiveCall, yards: int, turnover: int): (o: Outcome)
    requires RushYardsDraw(call, yards) && RandInt(turnover, 0, 99)
    ensures o.ydsGained == yards
    ensures call == RunCall ==> -5 <= o.ydsGained <= 5
    ensures call == PassCall ==> 0 <= o.ydsGained <= 10
    ensures -5 <= o.ydsGained <= 10
    ensures o.changeOfPossession <==> turnover < 5
  {
    Outcome(yards, TurnoverAt(turnover))
  }

  /** A kickoff: a touchback gives 40 yards whatever the return draw; otherwise
      the return is taken off the kick. For a constructed kickoff the result
      lies in [10, 65]. */
  function SimKick(kick: Variant, returnYds: int): (o: Outcome)
    requires kick.Kick? && RandInt(returnYds, 0, 30)
    ensures kick.touchback ==> o.ydsGained == 40
    ensures !kick.touchback ==> o.ydsGained == kick.ydsKicked - returnYds
    ensures o.changeOfPossession
    ensures VariantConstructed(kick) ==> 10 <= o.ydsGained <= 65
  {
    Outcome(if kick.touchback then 40 else kick.ydsKicked - returnYds, true)
  }

  /** A punt: a touchback brings the ball out to 25 yards from the receivers'
      goal line; otherwise the return is taken off the punt. For a constructed
      punt that is not a touchback, the result is at least 0 and never more
      than the distance to the goal line. */
  function SimPunt(punt: Variant, returnYds: int): (o: Outcome)
    requires punt.Punt? && RandInt(returnYds, 0, 30)
    ensures punt.touchback ==> o.ydsGained == punt.ydsToGoal - 25
    ensures !punt.touchback ==> o.ydsGained == punt.ydsPunted - returnYds
    ensures o.changeOfPossession
    ensures VariantConstructed(punt) && punt.touchback ==> o.ydsGained < 35
    ensures VariantConstructed(punt) && !punt.touchback ==> 0 <= o.ydsGained <= punt.ydsToGoal
  {
    Outcome(if punt.touchback then punt.ydsToGoal - 25 else punt.ydsPunted - returnYds, true)
  }

  /** A field goal gains nothing and hands the ball over, made or missed. */
  function SimFieldGoal(fieldGoal: Variant): (o: Outcome)
    requires fieldGoal.FieldGoal?
    ensures o.ydsGained == 0 && o.changeOfPossession
  {
    Outcome(0, true)
  }

  /** The draws `sim` makes for a play of the given variant, each in its range. */
  predicate DrawsFit(v: Variant, d: SimDraws) {
    match v
    case Pass => d.LiveDraws? && PassYardsDraw(d.call, d.yards) && RandInt(d.turnover, 0, 99)
    case Rush => d.LiveDraws? && RushYardsDraw(d.call, d.yards) && RandInt(d.turnover, 0, 99)
    case Kick(_, _) => d.ReturnDraw? && RandInt(d.returnYds, 0, 30)
    case Punt(_, _, _) => d.ReturnDraw? && RandInt(d.returnYds, 0, 30)
    case FieldGoal(_, _) => d.NoDraws?
  }

  /** The outcome of `sim`, dispatched on the variant. */
  function Resolve(v: Variant, d: SimDraws): (o: Outcome)
    requires DrawsFit(v, d)
    ensures v.Pass? || v.Rush? ==> o.ydsGained == d.yards
    ensures v.Kick? ==> o.ydsGained == (if v.touchback then 40 else v.ydsKicked - d.returnYds)
    ensures v.Punt? ==> o.ydsGained == (if v.touchback then v.ydsToGoal - 25 else v.ydsPunted - d.returnYds)
    ensures v.Pass? ==> -5 <= o.ydsGained <= 20
    ensures v.Rush? ==> -5 <= o.ydsGained <= 10
    ensures v.Kick? && VariantConstructed(v) ==> 10 <= o.ydsGained <= 65
    ensures v.Punt? && VariantConstructed(v) && !v.touchback ==> 0 <= o.ydsGained <= v.ydsToGoal
    ensures v.FieldGoal? ==> o.ydsGained == 0
    ensures v.Pass? || v.Rush? ==> (o.changeOfPossession <==> d.turnover < 5)
    ensures !v.Pass? && !v.Rush? ==> o.changeOfPossession
  {
    match v
    case Pass => SimPass(d.call, d.yards, d.turnover)
    case Rush => SimRush(d.call, d.yards, d.turnover)
    case Kick(_, _) => SimKick(v, d.returnYds)
    case Punt(_, _, _) => SimPunt(v, d.returnYds)
    case FieldGoal(_, _) => SimFieldGoal(v)
  }

  /** `sim`: fills in the outcome fields and leaves everything set at
      construction (variant fields, duration) as it was. It does not check
      whether the play was simulated before; a second call overwrites. */
  function Sim(p: Play, d: SimDraws): (r: Play)
    requires DrawsFit(p.variant, d)
    ensures r.variant == p.variant && r.duration == p.duration
    ensures Constructed(p) ==> Constructed(r)
    ensures !Unresolved(r)
    ensures r.ydsGained == Some(Resolve(p.variant, d).ydsGained)
    ensures r.changeOfPossession == Resolve(p.variant, d).changeOfPossession
  {
    var o := Resolve(p.variant, d);
    p.(ydsGained := Some(o.ydsGained), changeOfPossession := o.changeOfPossession)
  }
}
