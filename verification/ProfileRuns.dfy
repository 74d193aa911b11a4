/** Whole runs of Risk administration: how often a proposed change becomes the active profile when
    its confirmation may die between its two saves. */
module ProfileRuns {
  import opened Domain
  import opened Risk

  /** The profile tables, and history: the change behind each version after the first, and the
      changes whose confirmation died with the version stored and the change still pending. */
  datatype Admin = Admin(profiles: seq<RiskProfile>, changes: map<Id, ProfileChange>, made: seq<Id>, cuts: seq<Id>)

  datatype Step =
    | Proposed(changeId: Id, limits: RiskProfile)
    | Confirmed(changeId: Id)
    | ConfirmCut(changeId: Id, stored: bool)

  const NO_PROFILES := Admin([], map[], [], [])

  predicate Pending(a: Admin, id: Id) { id in a.changes && !a.changes[id].confirmed }

  function NewVersion(a: Admin, id: Id): RiskProfile
    requires id in a.changes
  {
    a.changes[id].limits.(version := |WithBootstrap(a.profiles)| + 1)
  }

  /** The first save of a confirmation: the change's limits as the next version. */
  function Activated(a: Admin, id: Id): Admin
    requires id in a.changes
  {
    a.(profiles := WithBootstrap(a.profiles) + [NewVersion(a, id)], made := a.made + [id])
  }

  function MarkConfirmed(c: ProfileChange, version: nat): ProfileChange {
    c.(confirmed := true, resultingVersion := Some(version))
  }

  function Next(a: Admin, step: Step): Admin {
    match step
    case Proposed(id, limits) =>
      if id !in a.changes && limits.(version := 1).Valid()
      then a.(changes := a.changes[id := ProfileChange(id, false, limits, None)]) else a
    case Confirmed(id) =>
      if Pending(a, id)
      then Activated(a, id).(changes := a.changes[id := MarkConfirmed(a.changes[id], NewVersion(a, id).version)]) else a
    case ConfirmCut(id, stored) =>
      if !Pending(a, id) then a
      else if stored then Activated(a, id).(cuts := a.cuts + [id])
      else a.(profiles := WithBootstrap(a.profiles))
  }

  function Run(a: Admin, steps: seq<Step>): Admin
    decreases |steps|
  {
    if steps == [] then a else Run(Next(a, steps[0]), steps[1..])
  }

  // ------------------------------------------------------------------ invariant

  /** Version i + 2 is the i-th activation, of the limits its change was proposed with. */
  predicate VersionsMade(profiles: seq<RiskProfile>, changes: map<Id, ProfileChange>, made: seq<Id>) {
    && ProfilesOk(profiles) && |made| == (if profiles == [] then 0 else |profiles| - 1)
    && (forall i | 0 <= i < |made| ::
          made[i] in changes && profiles[i + 1] == changes[made[i]].limits.(version := i + 2))
  }

  predicate ChangesOk(changes: map<Id, ProfileChange>) {
    forall id | id in changes :: changes[id].limits.(version := 1).Valid()
  }

  function Confirmations(changes: map<Id, ProfileChange>, id: Id): nat {
    if id in changes && changes[id].confirmed then 1 else 0
  }

  /** A change was activated once for each cut confirmation and once for the completed one. */
  ghost predicate Counted(a: Admin) {
    forall id: Id :: multiset(a.made)[id] == multiset(a.cuts)[id] + Confirmations(a.changes, id)
  }

  /** A confirmed change names its version, and was never activated after it. */
  predicate LastIsConfirmed(changes: map<Id, ProfileChange>, made: seq<Id>) {
    forall id | id in changes && changes[id].confirmed ::
      && changes[id].resultingVersion.Some?
      && var v := changes[id].resultingVersion.value;
      && 2 <= v < |made| + 2 && made[v - 2] == id
      && (forall i | v - 2 < i < |made| :: made[i] != id)
  }

  ghost predicate Inv(a: Admin) {
    VersionsMade(a.profiles, a.changes, a.made) && ChangesOk(a.changes) && Counted(a) && LastIsConfirmed(a.changes, a.made)
  }

  lemma OneMore(ids: seq<Id>, id: Id, i: Id)
    ensures multiset(ids + [id])[i] == multiset(ids)[i] + if i == id then 1 else 0
  {
  }

  lemma ActivationKeepsVersions(a: Admin, id: Id)
    requires VersionsMade(a.profiles, a.changes, a.made) && ChangesOk(a.changes) && id in a.changes
    ensures VersionsMade(Activated(a, id).profiles, a.changes, a.made + [id])
  {
  }

  lemma StepCounts(a: Admin, step: Step)
    requires Counted(a)
    ensures Counted(Next(a, step))
  {
    forall id: Id
      ensures multiset(Next(a, step).made)[id]
           == multiset(Next(a, step).cuts)[id] + Confirmations(Next(a, step).changes, id)
    {
      StepCountsOne(a, step, id);
    }
  }

  lemma StepCountsOne(a: Admin, step: Step, id: Id)
    requires multiset(a.made)[id] == multiset(a.cuts)[id] + Confirmations(a.changes, id)
    ensures var a' := Next(a, step);
      multiset(a'.made)[id] == multiset(a'.cuts)[id] + Confirmations(a'.changes, id)
  {
    OneMore(a.made, step.changeId, id);
    OneMore(a.cuts, step.changeId, id);
  }

  lemma ActivationKeepsLast(changes: map<Id, ProfileChange>, made: seq<Id>, id: Id)
    requires LastIsConfirmed(changes, made) && id in changes && !changes[id].confirmed
    ensures LastIsConfirmed(changes, made + [id])
    ensures LastIsConfirmed(changes[id := MarkConfirmed(changes[id], |made| + 2)], made + [id])
  {
  }

  lemma HistoryGrows(a: Admin, step: Step)
    ensures a.profiles <= Next(a, step).profiles
  {
  }

  lemma ConfirmationStepsKeep(a: Admin, step: Step)
    requires Inv(a) && !step.Proposed? && Pending(a, step.changeId)
    ensures var a' := Next(a, step);
      VersionsMade(a'.profiles, a'.changes, a'.made) && ChangesOk(a'.changes) && LastIsConfirmed(a'.changes, a'.made)
  {
    ActivationKeepsVersions(a, step.changeId);
    ActivationKeepsLast(a.changes, a.made, step.changeId);
    assert NewVersion(a, step.changeId).version == |a.made| + 2;
  }

  lemma StepKeeps(a: Admin, step: Step)
    requires Inv(a)
    ensures Inv(Next(a, step))
  {
    StepCounts(a, step);
    if !step.Proposed? && Pending(a, step.changeId) { ConfirmationStepsKeep(a, step); }
  }

  lemma {:induction false} RunKeeps(a: Admin, steps: seq<Step>)
    requires Inv(a)
    ensures Inv(Run(a, steps)) && a.profiles <= Run(a, steps).profiles
    decreases |steps|
  {
    if steps != [] {
      StepKeeps(a, steps[0]);
      HistoryGrows(a, steps[0]);
      RunKeeps(Next(a, steps[0]), steps[1..]);
    }
  }

  // ------------------------------------------------------------------- theorems

  predicate NoneStored(steps: seq<Step>) { forall i | 0 <= i < |steps| :: !(steps[i].ConfirmCut? && steps[i].stored) }

  lemma {:induction false} NoCuts(a: Admin, steps: seq<Step>)
    requires NoneStored(steps)
    ensures Run(a, steps).cuts == a.cuts
    decreases |steps|
  {
    if steps != [] { NoCuts(Next(a, steps[0]), steps[1..]); }
  }

  /** In every run a change is activated exactly once for every confirmation that died after its first
      save and once more if it is confirmed, never again after that, and always with the limits it
      was proposed with; versions count up without gaps and none is ever dropped or rewritten. */
  lemma ActivationsCounted(past: seq<Step>, future: seq<Step>, id: Id)
    ensures var a := Run(NO_PROFILES, past);
      var a' := Run(a, future);
      && multiset(a'.made)[id] == multiset(a'.cuts)[id] + Confirmations(a'.changes, id)
      && VersionsMade(a'.profiles, a'.changes, a'.made) && LastIsConfirmed(a'.changes, a'.made)
      && a.profiles <= a'.profiles
      && (NoneStored(past) ==> multiset(a.made)[id] == Confirmations(a.changes, id) <= 1)
  {
    RunKeeps(NO_PROFILES, past);
    RunKeeps(Run(NO_PROFILES, past), future);
    if NoneStored(past) { NoCuts(NO_PROFILES, past); }
  }

  /** So a crash can bring old limits back: `first` is activated and its confirmation dies, `second` is
      confirmed and replaces it, and confirming the pending `first` again makes it active once more. */
  lemma PendingChangeReturns(first: RiskProfile, second: RiskProfile)
    requires first.(version := 1).Valid() && second.(version := 1).Valid()
    ensures var steps := [Proposed(1, first), Proposed(2, second), ConfirmCut(1, true), Confirmed(2), Confirmed(1)];
      Run(NO_PROFILES, steps).profiles
        == [BOOTSTRAP, first.(version := 2), second.(version := 3), first.(version := 4)]
  {
    var steps := [Proposed(1, first), Proposed(2, second), ConfirmCut(1, true), Confirmed(2), Confirmed(1)];
    var a2 := Next(Next(NO_PROFILES, steps[0]), steps[1]);
    var a4 := Next(Next(a2, steps[2]), steps[3]);
    assert steps[1..][1..] == steps[2..] && steps[2..][1..] == steps[3..];
    assert steps[3..][1..] == steps[4..] && steps[4..][1..] == [];
    assert Run(NO_PROFILES, steps) == Run(a2, steps[2..]);
    assert Run(a2, steps[2..]) == Run(a4, steps[4..]);
    assert Run(a4, steps[4..]) == Run(Next(a4, steps[4]), []);
  }

  /** The confirmation the engine performs is one step. */
  lemma ConfirmIsAStep(a: Admin, id: Id, profiles: seq<RiskProfile>, changes: map<Id, ProfileChange>, profile: RiskProfile)
    requires Inv(a) && Pending(a, id)
    requires profile == a.changes[id].limits.(version := |WithBootstrap(a.profiles)| + 1)
    requires profiles == WithBootstrap(a.profiles) + [profile]
    requires changes == a.changes[id := a.changes[id].(confirmed := true, resultingVersion := Some(profile.version))]
    ensures Next(a, Confirmed(id)) == Admin(profiles, changes, a.made + [id], a.cuts)
  {
  }
}
