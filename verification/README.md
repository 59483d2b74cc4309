# Play-resolution engine of a football drive simulator

This project models the play engine of the simulator: the five kinds of
play (pass, rush, kickoff, punt, field goal) that an external drive loop
builds and resolves one at a time. Each play has two phases:

- **Construction** draws the play's duration (5 to 15; the code gives no unit). A kicking
  play also draws its distance there and derives a flag from it with a
  strict `>`: a kickoff beyond 65 yards is a touchback, a punt beyond the
  goal line is a touchback, and a field goal carrying more than
  `yds_to_goal + 17` is good.
- **Resolution** (`sim`) draws the rest. It sets the yards gained and
  whether possession changes.

The model is purely functional. A `Play` is an immutable value whose
`Variant` has one constructor per kind of play and carries that kind's
construction-time fields. Construction (`NewPass`, …, `NewFieldGoal`) and
resolution (`Sim`, dispatching to `SimPass`, …, `SimFieldGoal`) are
functions. Every random draw is an explicit argument:

- each `random.randint(a, b)` is an integer `x` with the precondition
  `RandInt(x, a, b)`, that is `a <= x <= b`;
- the defensive call `random.choice(["run", "pass"])` is the enumeration
  `DefensiveCall`;
- the turnover `random.choice([True] * 5 + [False] * 95)` is an index into
  that list, which the model spells out as `TurnoverChoices()`.

Modules:

- `Wrappers` (wrappers.dfy) defines `Option`, which stands for an attribute
  that may still be `None`.
- `Draws` (draws.dfy) holds the draws and `CountWhere`. `CountWhere` counts
  how many of the possible values of a draw have a property. Under a
  uniform draw that count divided by the range size is the probability, but
  the model states only the count.
- `PlayTypes` (play_types.dfy) holds the data model, construction and
  resolution.
- `Outcomes` (outcomes.dfy) holds properties that span all draws. For each
  kind of play it states exactly which yardages are reachable, in both
  directions. It also gives how many distance draws set each flag, and the
  boundary cases.

The model takes `yds_to_goal` as the code does:

- `NewPunt` and `NewFieldGoal` accept any integer `yds_to_goal`. The code
  does no range check on it (play_types.py:63-68, 77-81).
- The `FieldGoal` variant carries only `ydsKicked` and `made`. The code
  uses `yds_to_goal` only to compute `made` and does not store it
  (play_types.py:81).

## Model

| member | source | states |
|---|---|---|
| Draws.TurnoverAt | backend/simulation/play_types.py:28-30 | picking index i of the 100-element turnover list yields True exactly when i < 5 |
| Draws.TurnoverDrawCount | backend/simulation/play_types.py:44-46 | exactly 5 of the 100 indices the turnover choice can pick mean a change of possession |
| PlayTypes.NewPlay | backend/simulation/play_types.py:6-10 | every play starts unresolved: no yards gained, no change of possession; it keeps the duration drawn from [5, 15] |
| PlayTypes.NewPass | backend/simulation/play_types.py:17-20 | a new pass is constructed and unresolved, keeps its drawn duration and is labelled "pass" |
| PlayTypes.NewRush | backend/simulation/play_types.py:33-36 | a new rush is constructed and unresolved, keeps its drawn duration and is labelled "rush" |
| PlayTypes.NewKick | backend/simulation/play_types.py:49-54 | a new kickoff keeps its drawn duration and its drawn distance from [40, 80] and is a touchback iff that distance exceeds 65 |
| PlayTypes.NewPunt | backend/simulation/play_types.py:62-68 | a new punt keeps its drawn duration, its distance from [30, 60] and yds_to_goal unchanged; it is a touchback iff the punt is strictly longer than yds_to_goal |
| PlayTypes.NewFieldGoal | backend/simulation/play_types.py:76-81 | a new field goal keeps its drawn duration and its distance from [30, 60] and is good iff that distance exceeds yds_to_goal + 17 |
| PlayTypes.SimPass | backend/simulation/play_types.py:22-30 | a pass gains exactly its yardage draw: read by the defence -5..5 and an unread one 0..20, so always -5..20; possession changes iff the turnover index is below 5, whatever the yardage |
| PlayTypes.SimRush | backend/simulation/play_types.py:38-46 | a rush gains exactly its yardage draw: read by the defence -5..5 and an unread one 0..10, so always -5..10; possession changes iff the turnover index is below 5 |
| PlayTypes.SimKick | backend/simulation/play_types.py:56-59 | a touchback gains 40 whatever the return; otherwise the kick minus the return; a constructed kickoff gains 10..65; possession always changes |
| PlayTypes.SimPunt | backend/simulation/play_types.py:70-73 | a touchback gains yds_to_goal - 25; otherwise the punt minus the return; a constructed punt that is not a touchback gains 0..yds_to_goal; possession always changes |
| PlayTypes.SimFieldGoal | backend/simulation/play_types.py:83-85 | a field goal gains 0 and possession always changes |
| PlayTypes.Resolve | backend/simulation/play_types.py:12-14 | every kind of play resolves; a pass or rush gains exactly its yardage draw, a kickoff 40 on a touchback and otherwise kick minus return, a punt yds_to_goal - 25 on a touchback and otherwise punt minus return; so a pass gains -5..20, a rush -5..10, a constructed kickoff 10..65, a constructed punt that is not a touchback 0..yds_to_goal, a field goal 0; kicking plays always change possession, live plays exactly when the turnover index is below 5 |
| PlayTypes.Sim | backend/simulation/play_types.py:5-14 | simulating fills in the outcome and changes nothing set at construction (variant fields, duration); a constructed play stays constructed |
| Outcomes.PassOutcomesExact | backend/simulation/play_types.py:22-30 | the outcomes a pass can reach are exactly the yardages -5..20, each with or without a turnover |
| Outcomes.RushOutcomesExact | backend/simulation/play_types.py:38-46 | the outcomes a rush can reach are exactly the yardages -5..10, each with or without a turnover |
| Outcomes.KickoffYardsExact | backend/simulation/play_types.py:49-59 | over all draws a kickoff gains exactly the yardages 10..65 |
| Outcomes.PuntYardsExact | backend/simulation/play_types.py:62-73 | over all draws a punt from ytg gains ytg - 25 if ytg < 60, and 0..min(ytg, 60) if ytg >= 30, and nothing else |
| Outcomes.PuntTouchbackCertainty | backend/simulation/play_types.py:66-68 | a punt from inside 30 yards is always a touchback; one from 60 or more never is |
| Outcomes.KickTouchbackDrawCount | backend/simulation/play_types.py:53-54 | 15 of the 41 kickoff distances are touchbacks |
| Outcomes.PuntTouchbackDrawCount | backend/simulation/play_types.py:66-68 | the punt distances that are touchbacks are those in [max(30, ytg + 1), 60] |
| Outcomes.FieldGoalMadeDrawCount | backend/simulation/play_types.py:80-81 | the field-goal distances that are good are those in [max(30, ytg + 18), 60]: all 31 inside 13 yards, none from 43 |
| Outcomes.DurationFixedAtConstruction | backend/simulation/play_types.py:9 | a constructed play's duration is in [5, 15] and simulating does not change it |
| Outcomes.FieldGoalOutcomeIgnoresMade | backend/simulation/play_types.py:76-85 | a field goal gains 0 and changes possession whether or not it is good, and simulating keeps `made` |
| Outcomes.PlayTypeIdentifiesKind | backend/simulation/play_types.py:20-79 | two plays carry the same play-type label iff they are the same kind of play |
| Outcomes.KickoffBoundary | backend/simulation/play_types.py:53-58 | a 65-yard kickoff is returned and a 66-yard kickoff is a touchback worth 40 |
| Outcomes.PuntScenario | backend/simulation/play_types.py:66-72 | from 40 yards out a 45-yard punt is a touchback gaining 15; a 40-yard punt is not a touchback |
| Outcomes.FieldGoalScenario | backend/simulation/play_types.py:80-85 | from 30 yards out a 48-yard kick is good and a 47-yard kick is not; either way the field goal gains 0 and changes possession |

## Left out

- Randomness itself: each draw is an argument. The model states the range of every draw and how the draws determine the outcome. It does not state that draws are uniform or that turnovers happen about 5% of the time. The counts in `Draws` and `Outcomes` (for example 5 of 100 turnover indices) are the deterministic part of those claims.
- The `play_type` attribute is not a field of `Play`. It is the function `PlayType` of the variant. The base constructor's transient `None` value, which every subclass overwrites at once, is not modelled.
- Calling `sim` twice: `Sim` accepts any play and overwrites its outcome, as the code does. No property about repeated resolution is stated.
- Drive and game orchestration (choosing the next play, tracking downs, clock and score) does not appear in the code at all; the play engine only exposes construction and `sim`.
- Feature engineering, odds handling and model training or inference (modeling/neural_network.py, modeling/support_vector_machine.py, backend/modeling/predict_current_season.py) are not part of this model. They are data loading with pandas, floating-point arithmetic and calls into scikit-learn.
- `yds_to_goal` is modelled as an integer. The code accepts any number there, including a float, and compares it with the integer draws; non-integer distances are not modelled.
