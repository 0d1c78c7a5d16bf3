# Shift planner core in Dafny

This project models the core of a small shift planner for a team of three
advisors (`ShiftPlanner` in `planning_model.py`). Each planned day, one advisor
opens (Apertura), one closes (Cierre) and one works the middle shift
(Intermedio).

The planner does four things:

- It checks its configuration.
- It builds a CP-SAT model with one variable per (advisor, week, day), taking
  values 1..3. The model's constraints are:
  - all-different per day;
  - the same role all week;
  - optionally, a pinned "opening only" advisor;
  - optionally, a role change between consecutive weeks for every advisor
    except the pinned one.
- It solves the model and turns the values into a nested solution
  `{advisor: {week: {day: label}}}` through `SHIFT_MAP`.
- It flattens the solution into records (Asesor, Semana, Día, Turno).

A static validator checks the structure of a nested solution.

Modules:

- `Wrappers`: Option, Result and Outcome.
- `Dicts`: a Python dict as insertion-ordered keys plus a map.
- `CpSat`: the little of OR-Tools the model uses, as variables, constraints
  and "an assignment satisfies the model".
- `PlannerConfig`: the constructor's checks.
- `ModelBuilder`: the variables and constraints `_make_model` adds, and what
  they mean.
- `Solver`: a complete search standing in for CP-SAT.
- `ShiftSolution`: extraction through `SHIFT_MAP`.
- `StructureCheck`: `validate_solution_structure`.
- `Records`: the records `solution_to_dataframe` builds.
- `Planner`: the loops of `_make_model`, `build_and_solve` and
  `solution_to_dataframe` as methods, and the `ShiftPlanner` class with its
  `vars`, `model` and `_solution` fields.

Main results:

- `ModelBuilder.ModelMeaning`: an assignment satisfies the built model exactly
  when it follows the planner's rules in plain terms.
- `Solver.Feasibility`: the model has a solution exactly when the three
  advisor names are distinct.
- `ShiftSolution.ExtractedMeetsRules`: every solution the planner stores keeps
  the rules when it is read as labels.
- `StructureCheck.ExtractedIsWellShaped`: every stored solution passes the
  validator.
- `Records.RowsRoundTrip`: a record is produced exactly when looking up
  (Asesor, Semana - 1, Día) in the solution gives back its Turno.
- `Records.RowsUnique`: no two records share a cell.
- `Records.RowsInConfiguredOrder`: the records come out advisor by advisor,
  week by week and day by day, in the configured order.

The constructor checks for an empty day list (`planning_model.py:54-55`),
but `days or [...]` at line 51 has already replaced an empty list with the six
default days, so that check can never fail. The model follows the code
(`PlannerConfig.EmptyDaysUseDefault`).

## Model

| member | source | states |
|---|---|---|
| PlannerConfig.CheckConfig | planning_model.py:50-68 | construction succeeds iff there are 3 advisors, weeks >= 1, an opening-only flag comes with a (non-empty) name, and a named opening advisor is listed; each failing check gives its own error, in the constructor's order; success yields the configuration with defaults filled in |
| PlannerConfig.EmptyDaysUseDefault | planning_model.py:51-55 | the "at least one day" error is never raised; an explicitly empty day list plans the default six days |
| ModelBuilder.Variables | planning_model.py:83-88 | the variable keys are exactly (advisor, w, day) for listed advisors, 0 <= w < weeks and listed days, each with domain 1..3 |
| ModelBuilder.RangesMeaning | planning_model.py:87 | the domain constraints hold iff every key has a value in 1..3 |
| ModelBuilder.AllDiffMeaning | planning_model.py:93-95 | one day's AllDifferent holds iff the three advisors' roles on that day are {1, 2, 3} |
| ModelBuilder.CoverageMeaning | planning_model.py:91-95 | the daily constraints hold iff every planned day has Apertura, Cierre and Intermedio |
| ModelBuilder.AdvisorConsistencyMeaning | planning_model.py:101-103 | one advisor's week constraints hold iff each of their days has the role of the first day |
| ModelBuilder.ConsistencyMeaning | planning_model.py:98-103 | the consistency constraints hold iff every advisor keeps one role for a whole week |
| ModelBuilder.PinMeaning | planning_model.py:106-109 | the pin constraints hold iff, when pinning is on, the pinned advisor opens every day |
| ModelBuilder.AdvisorRotationMeaning | planning_model.py:117-121 | one advisor's rotation constraints hold iff their role differs on consecutive weeks |
| ModelBuilder.RotationMeaning | planning_model.py:112-121 | the rotation constraints hold iff, with rotation on and more than one week, every advisor except the pinned one changes role between consecutive weeks |
| ModelBuilder.ModelMeaning | planning_model.py:78-125 | an assignment satisfies the whole model iff it follows all the rules above |
| Solver.CandidateCoverage | planning_model.py:91-95 | the candidate gives the three advisors three different roles in every week |
| Solver.CandidateRoleChanges | planning_model.py:112-121 | the candidate's role for a non-exempt advisor changes from each week to the next |
| Solver.CandidateFollowsRules | planning_model.py:78-125 | with distinct names the candidate follows every rule of the model |
| Solver.SatisfiableMeansDistinct | planning_model.py:91-95 | if any assignment satisfies the model, then the advisor names are distinct |
| Solver.Feasibility | planning_model.py:138-140 | the model is satisfiable iff the advisor names are distinct |
| Solver.Solve | planning_model.py:138-140 | reports Feasible with a satisfying assignment, or Infeasible when no assignment satisfies the model |
| Solver.DefaultAdvisorsSolvable | planning_model.py:50 | every accepted configuration that uses the default advisors has a satisfiable model |
| ShiftSolution.ShiftMapValues | planning_model.py:27 | the labels of `SHIFT_MAP` are exactly Apertura, Cierre, Intermedio |
| ShiftSolution.LabelOfRole | planning_model.py:149-150 | a value in 1..3 is stored as its `SHIFT_MAP` label |
| ShiftSolution.ExtractDaysContent | planning_model.py:147-150 | a week's day dict holds exactly the first n listed days, each with its label |
| ShiftSolution.ExtractWeeksKeys | planning_model.py:146-147 | an advisor's week dict has keys 0 .. n-1, in order |
| ShiftSolution.ExtractWeeksEntries | planning_model.py:146-150 | week w of an advisor holds that week's day dict |
| ShiftSolution.ExtractDaysKeys | planning_model.py:148-150 | with distinct day names, a week's day dict has the first n listed days as its keys, in configured order |
| ShiftSolution.ExtractAdvisorsKeys | planning_model.py:144-145 | with distinct advisor names, the solution has the first n listed advisors as its keys, in configured order |
| ShiftSolution.ExtractAdvisorsContent | planning_model.py:144-145 | the solution holds exactly the first n listed advisors, each with their weeks |
| ShiftSolution.ExtractedShape | planning_model.py:143-151 | the solution has the listed advisors, exactly `weeks` weeks each, and the listed days in every week |
| ShiftSolution.ExtractedAt | planning_model.py:149-150 | every variable key is present in the solution with the label of its value |
| ShiftSolution.ExtractedWellFormed | planning_model.py:143-151 | every dict in the extracted solution keeps the dict invariant |
| ShiftSolution.ExtractedCovers | planning_model.py:91-95 | in a stored solution every day carries all three labels |
| ShiftSolution.ExtractedKeepsWeeks | planning_model.py:98-103 | in a stored solution every advisor has the same label all week |
| ShiftSolution.ExtractedPinned | planning_model.py:106-109 | in a stored solution the pinned advisor is Apertura on every day |
| ShiftSolution.ExtractedRotates | planning_model.py:112-121 | in a stored solution a non-exempt advisor's label changes between consecutive weeks |
| ShiftSolution.ExtractedMeetsRules | planning_model.py:127-152 | the extraction of any satisfying assignment keeps all the rules as labels |
| StructureCheck.CheckDays | planning_model.py:195-199 | the day loop passes iff every listed day is present with a known label; a failure reports the first bad day: missing day, or unknown label |
| StructureCheck.CheckWeeks | planning_model.py:192-199 | the week loop passes iff weeks 0..weeks-1 are present and complete; a failure reports the first bad week, as a missing week or that week's day error |
| StructureCheck.CheckAdvisor | planning_model.py:186-199 | one advisor passes iff present, with exactly `weeks` weeks, all complete |
| StructureCheck.CheckAdvisors | planning_model.py:185-199 | the advisor loop passes iff every listed advisor passes; a failure is the first failing advisor's error |
| StructureCheck.ValidateSolutionStructure | planning_model.py:180-199 | passes iff the solution is well shaped for the listed advisors, weeks and days; a failure is one of the five structure errors |
| StructureCheck.DayErrorIsReal | planning_model.py:195-199 | a day-loop error names a listed day that is really missing, or a label that really is unknown |
| StructureCheck.WeekErrorIsReal | planning_model.py:192-199 | a week-loop error names a week, day or label that is really at fault |
| StructureCheck.ValidationErrorIsReal | planning_model.py:180-199 | every error the validator raises points at a real defect in a listed advisor, week or day |
| StructureCheck.ExtraAdvisorIgnored | planning_model.py:185 | an advisor outside the listed ones does not change the verdict |
| StructureCheck.ExtraDayIgnored | planning_model.py:195 | a day outside the listed ones does not change a week's verdict |
| StructureCheck.ExtractedIsWellShaped | planning_model.py:143-151 | a solution extracted from values in 1..3 passes the validator |
| Records.DayRowsMembership | planning_model.py:165-166 | a week's records are exactly its days with their labels, Semana = w + 1 |
| Records.WeekRowsMembership | planning_model.py:164-166 | an advisor's records are exactly the days of their weeks with their labels |
| Records.AdvisorRowsMembership | planning_model.py:163-166 | the records of the first n advisors are exactly their stored labels |
| Records.RowsRoundTrip | planning_model.py:154-170 | a record is produced iff looking up (Asesor, Semana - 1, Día) gives back its Turno |
| Records.ExtractedDayRows | planning_model.py:165-166 | with distinct day names, an extracted week yields one record per listed day, in configured order, each with its label |
| Records.ExtractedWeekRows | planning_model.py:164-166 | with distinct day names, an extracted advisor yields their records week 0 first, then week 1, and so on, each week's days in configured order |
| Records.RowsInConfiguredOrder | planning_model.py:162-166 | with distinct advisor and day names, the records of a stored solution are ordered by advisor (as configured), then by week, then by day (as configured) |
| Records.RowsUnique | planning_model.py:162-166 | no two records share (Asesor, Semana, Día) |
| Planner.MakeVariables | planning_model.py:83-88 | the variable loop builds exactly `Variables` |
| Planner.AddCoverage | planning_model.py:91-95 | appends one AllDifferent per (week, day), in loop order |
| Planner.AddConsistency | planning_model.py:98-103 | appends one equality with the first day per (week, advisor, later day), in loop order |
| Planner.AddPinning | planning_model.py:106-109 | appends the pin constraints, none when pinning is off |
| Planner.AddRotation | planning_model.py:112-121 | appends the rotation constraints, skipping the pinned advisor, none when rotation is off or there is one week |
| Planner.MakeConstraints | planning_model.py:90-125 | builds exactly `ModelConstraints` |
| Planner.ExtractSolution | planning_model.py:142-151 | the extraction loops build exactly `Extracted` |
| Planner.FlattenSolution | planning_model.py:162-166 | the record loops build exactly `Rows` |
| Planner.SolveAndExtract | planning_model.py:138-152 | succeeds iff the advisor names are distinct, and otherwise raises the no-solution error; a success is an extraction of a satisfying assignment that keeps the rules and passes the validator |
| Planner.ShiftPlanner.constructor | planning_model.py:59-76 | stores the accepted configuration, with no model and no solution |
| Planner.ShiftPlanner.Create | planning_model.py:29-76 | gives a planner iff the constructor's checks pass, and otherwise the error of the first failing check |
| Planner.ShiftPlanner.MakeModel | planning_model.py:78-125 | sets `vars` and `model` to the model of the configuration and keeps the stored solution |
| Planner.ShiftPlanner.BuildAndSolve | planning_model.py:127-152 | rebuilds the model; succeeds iff the advisor names are distinct; on success it stores and returns a solution that keeps the rules and passes the validator; on failure the stored solution is unchanged |
| Planner.ShiftPlanner.SolutionToDataframe | planning_model.py:154-170 | raises when no solution is stored, and otherwise returns the records of the stored solution |
| Planner.ShiftPlanner.SolutionToJson | planning_model.py:172-177 | the same records as `SolutionToDataframe` |
| Dicts.Dict.PutSemantics | planning_model.py:145-150 | `d[k] = v` stores v under k, leaves every other key's value unchanged, adds only k to the keys, and keeps the existing keys' order |
| Dicts.Dict.PutValid | planning_model.py:145-150 | assigning a key keeps the dict invariant; the length grows by one iff the key is new |

## Left out

- Holidays (`planning_model.py:63`) are stored by the source but never used, so the model has no field for them.
- The solver object, its time limit and its worker count (`planning_model.py:133-136`) are not modelled. A search that runs out of time is not modelled either. The model's solve always reaches a verdict.
- The Unknown and ModelInvalid statuses are declared but never produced. The raise on any status other than Optimal or Feasible is modelled.
- Solver.Solve: a complete search over one concrete candidate stands in for CP-SAT. It is proved to find a solution exactly when one exists, but it need not return the assignment CP-SAT would pick.
- Variable display names (`f"{advisor}_w{w}_{day}"`, `planning_model.py:86`) are not modelled; a variable is identified by its key.
- The `isinstance` checks of the validator (`planning_model.py:183-184, 188-189`) are not modelled. The model's types make a non-dict impossible.
- The pandas DataFrame and its column order (`planning_model.py:167-169`) are not modelled: records are a sequence of `Row` values with the four columns as fields.
- Logging, the Flask application, its routes and its sessions are not part of this model.
- The in-place filling of nested dicts in `build_and_solve` (`sol[advisor][w][day] = ...`) is modelled as building each inner dict and then storing it. Aliasing between the returned and the stored solution is not observable in the model.
- ShiftSolution.Label: a value outside 1..3, which would raise a KeyError in the source, yields the empty string. This case is proved unreachable for the values the planner extracts (`ShiftSolution.LabelOfRole`).
- The constructor does not reject repeated advisor names. Such a planner is accepted, but its model is infeasible, so `build_and_solve` raises the no-solution error (`Solver.Feasibility`, `Planner.ShiftPlanner.BuildAndSolve`).
- Records.RowsInConfiguredOrder: stated only for distinct advisor names and distinct day names. A stored solution always has distinct advisor names (`Solver.Feasibility`). The constructor does not reject a repeated day name. With one, the day dict holds that day once, at its first position, so a week yields fewer records than listed days.
