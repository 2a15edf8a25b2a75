/**
 * The journey controller of src/app/context/JourneyContext.tsx: the state
 * the provider holds, the local-storage mirror it writes key by key, the
 * session-resume bootstrap and every navigation operation the screens call.
 */
module Journey {
  import opened Wrappers
  import opened Catalog
  import opened FormData
  import opened Sequencer

  /**
   * A local-storage key as the bootstrap reads it back: absent, present but
   * rejected by its parser (`JSON.parse` throws, `parseInt` gives NaN), or
   * holding the value that was written.
   */
  datatype Slot<T> = Missing | Garbled | Held(value: T)

  /**
   * The six keys under the `hdfcJourney_` prefix. The userType, journeyType and
   * branchStepId keys are stored as plain strings, so they have no parse step.
   */
  datatype Store = Store(
    userType: Option<UserType>,
    journeyType: Option<JourneyType>,
    stepIndex: Slot<int>,
    journeySteps: Slot<seq<Step>>,
    branchStepId: Option<StepId>,
    formData: Slot<Bag>)

  /** Local storage once every journey key has been removed. */
  function EmptyStore(): Store {
    Store(None, None, Missing, Missing, None, Missing)
  }

  /** The primary button a screen puts in the shared bottom bar. */
  datatype Bar = Bar(caption: string, disabled: bool)

  /** The error banner. */
  datatype ErrorInfo = ErrorInfo(title: string, message: string)

  /** The two steps the bootstrap migration discards (line 336). */
  predicate Retired(s: Step) {
    s.id == Listed(KycDetails) || s.id == Listed(NomineeDetails)
  }

  /** The migration filter: every retired step is dropped, every other step is kept. */
  function Migrate(steps: seq<Step>): (r: seq<Step>)
    ensures |r| <= |steps|
    ensures forall s :: s in r <==> s in steps && !Retired(s)
  {
    if steps == [] then []
    else if Retired(steps[0]) then Migrate(steps[1..])
    else [steps[0]] + Migrate(steps[1..])
  }

  /** The filter works element by element, so it keeps the order of what it keeps. */
  lemma {:induction false} MigrateAppend(a: seq<Step>, b: seq<Step>)
    ensures Migrate(a + b) == Migrate(a) + Migrate(b)
  {
    if a == [] {
      assert a + b == b;
    } else {
      assert (a + b)[1..] == a[1..] + b;
      MigrateAppend(a[1..], b);
    }
  }

  /** A sequence without retired steps passes through the migration unchanged. */
  lemma {:induction false} MigrateKeepsCurrent(steps: seq<Step>)
    requires forall i :: 0 <= i < |steps| ==> !Retired(steps[i])
    ensures Migrate(steps) == steps
  {
    if steps != [] {
      MigrateKeepsCurrent(steps[1..]);
    }
  }

  /** Migrating twice is migrating once. */
  lemma MigrateIdempotent(steps: seq<Step>)
    ensures Migrate(Migrate(steps)) == Migrate(steps)
  {
    var m := Migrate(steps);
    assert forall i :: 0 <= i < |m| ==> m[i] in m;
    MigrateKeepsCurrent(m);
  }

  /** No canonical journey holds a retired step, so the migration never changes one. */
  lemma CanonicalSurvivesMigration(t: JourneyType)
    ensures Migrate(InitialSteps(t)) == InitialSteps(t)
  {
    var r := InitialSteps(t);
    assert forall i :: 0 <= i < |r| ==> r[i].id == StepIds(t)[i];
    MigrateKeepsCurrent(r);
  }

  /** What the bootstrap block decides. */
  datatype Outcome =
    | Cold
    | Reset
    | Restore(userType: UserType, journeyType: Option<JourneyType>, steps: seq<Step>, index: int,
              formData: Option<Bag>, branch: Option<Component>)

  /**
   * The decision of the bootstrap block (lines 319-370) from the saved keys and
   * the `resume=true` URL flag: a cold start when one of userType, stepIndex and
   * journeySteps is missing; a restore when the migrated sequence is non-empty,
   * the stored index is below its length and nothing fails to parse; a reset
   * otherwise (the catch block included).
   */
  function Resume(saved: Store, resumeUrl: bool): (r: Outcome)
    ensures r.Cold? <==> saved.userType.None? || saved.stepIndex.Missing? || saved.journeySteps.Missing?
    ensures r.Restore? <==>
      && saved.userType.Some? && saved.stepIndex.Held? && saved.journeySteps.Held?
      && 0 < |Migrate(saved.journeySteps.value)|
      && saved.stepIndex.value < |Migrate(saved.journeySteps.value)|
      && !saved.formData.Garbled?
    ensures r.Restore? ==>
      && r.userType == saved.userType.value
      && r.journeyType == saved.journeyType
      && r.steps == Migrate(saved.journeySteps.value)
      && r.index < |r.steps|
      && r.index == (if resumeUrl then 0 else saved.stepIndex.value)
      && (r.formData.Some? <==> saved.formData.Held?)
      && (r.formData.Some? ==> r.formData.value == saved.formData.value)
      && (r.branch.Some? <==> saved.branchStepId.Some? && saved.branchStepId.value in StepComponents())
      && (r.branch.Some? ==> r.branch.value == StepComponents()[saved.branchStepId.value])
  {
    if saved.userType.None? || saved.stepIndex.Missing? || saved.journeySteps.Missing? then Cold
    else if saved.journeySteps.Garbled? then Reset
    else
      var parsed := Migrate(saved.journeySteps.value);
      if saved.stepIndex.Garbled? then Reset
      else
        var stored := saved.stepIndex.value;
        if !(|parsed| > 0 && stored < |parsed|) then Reset
        else if saved.formData.Garbled? then Reset
        else
          var index := if resumeUrl then 0 else Min(stored, Max(0, |parsed| - 1));
          var bag := if saved.formData.Held? then Some(saved.formData.value) else None;
          var branch := if saved.branchStepId.Some? then ComponentFor(saved.branchStepId.value) else None;
          Restore(saved.userType.value, saved.journeyType, parsed, index, bag, branch)
  }

  function Min(a: int, b: int): int { if a <= b then a else b }
  function Max(a: int, b: int): int { if a >= b then a else b }

  /**
   * A session the controller persisted (index, sequence and form data written,
   * no branch) comes back exactly as it was saved.
   */
  lemma SaveThenResume(u: UserType, jt: Option<JourneyType>, steps: seq<Step>, i: int, bag: Bag)
    requires forall k :: 0 <= k < |steps| ==> !Retired(steps[k])
    requires 0 <= i < |steps|
    ensures Resume(Store(Some(u), jt, Held(i), Held(steps), None, Held(bag)), false)
         == Restore(u, jt, steps, i, Some(bag), None)
  {
    MigrateKeepsCurrent(steps);
  }

  /** Only the upper bound of the stored index is checked: a negative index is restored as it is. */
  lemma NegativeIndexRestored(t: JourneyType, i: int)
    requires i < 0
    ensures Resume(Store(Some(Ntb), Some(t), Held(i), Held(InitialSteps(t)), None, Missing), false)
         == Restore(Ntb, Some(t), InitialSteps(t), i, None, None)
  {
    CanonicalSurvivesMigration(t);
    SequenceShape(t);
  }

  /**
   * What a `nextStep` callback is closed over (lines 373-397): the step index
   * and the sequence length of the render that created it. A callback run
   * from a timer carries the values of the render that started the timer.
   */
  datatype Capture = Capture(index: int, length: int)

  /**
   * The one-time resume jump of lines 381-391: the URL asks to resume, the
   * captured index is 0 and the stored index lies strictly between 0 and the
   * captured length.
   */
  predicate Jumps(c: Capture, resume: bool, saved: Slot<int>) {
    resume && c.index == 0 && saved.Held? && 0 < saved.value < c.length
  }

  /**
   * The index `nextStep` writes, if any: the stored index on the resume
   * jump, else one past the captured index unless that was the last. It
   * never moves back and never reaches the captured length.
   */
  function NextTarget(c: Capture, resume: bool, saved: Slot<int>): (r: Option<int>)
    ensures r.None? <==> !Jumps(c, resume, saved) && c.index >= c.length - 1
    ensures r.Some? ==> c.index < r.value < c.length
    ensures Jumps(c, resume, saved) ==> r == Some(saved.value)
    ensures !Jumps(c, resume, saved) && r.Some? ==> r.value == c.index + 1
  {
    if Jumps(c, resume, saved) then Some(saved.value)
    else if c.index < c.length - 1 then Some(c.index + 1)
    else None
  }

  /** The index after `nextStep`: its target, or the index it found when it writes none. */
  function Landing(current: int, c: Capture, resume: bool, saved: Slot<int>): int {
    var t := NextTarget(c, resume, saved);
    if t.Some? then t.value else current
  }

  /**
   * A `nextStep` closed over an older render can leave the sequence: captured
   * on reviewApplication (index 3) of etb-nk and run after the journey was
   * switched to the three-step etb sequence, it writes index 4.
   */
  lemma StaleAdvanceLeavesRange(saved: Slot<int>)
    ensures InitialSteps(EtbNk)[3].id == Listed(ReviewApplication)
    ensures NextTarget(Capture(3, |InitialSteps(EtbNk)|), false, saved) == Some(4)
    ensures 4 >= |InitialSteps(Etb)|
  {
    assert StepIds(EtbNk)[3] == Listed(ReviewApplication);
  }

  /**
   * The position `switchToDigitalKycFlow` restores to: the step after
   * kycChoice, which is the second step of ntb and etb-nk, or the first step
   * for the sequences without kycChoice. It lies inside the restored sequence.
   */
  function DigitalTarget(t: JourneyType): (r: int)
    ensures 0 <= r < |InitialSteps(t)|
  {
    if t.Ntb? || t.EtbNk? then 2 else 0
  }

  /** `kycIndex !== -1 ? kycIndex + 1 : 0` (lines 248-249) is that position. */
  lemma DigitalTargetPastKycChoice(t: JourneyType)
    ensures var k := IndexOfId(InitialSteps(t), Listed(KycChoice));
      DigitalTarget(t) == if k != -1 then k + 1 else 0
  {
    KycChoicePosition(t);
  }

  /** The key the controller persists for a branch screen (line 217); none when there is no branch. */
  function BranchKey(c: Option<Component>): Option<StepId> {
    if c.None? then None else FindKey(ComponentKeys(), c.value)
  }

  /** `CurrentStepComponent` (lines 438-440): the screen of the current step, none when the index is out of range. */
  function CurrentComponent(steps: seq<Step>, index: int): (r: Option<Component>)
    ensures r.Some? <==> 0 <= index < |steps| && steps[index].id in StepComponents()
    ensures r.Some? ==> r.value == StepComponents()[steps[index].id]
  {
    if 0 <= index < |steps| then ComponentFor(steps[index].id) else None
  }

  /** The provider's state. */
  class Provider {
    var userType: UserType
    var journeyType: Option<JourneyType>
    var index: int
    var steps: seq<Step>
    var showDashboard: bool
    var error: Option<ErrorInfo>
    var branch: Option<Component>
    var bottomBar: Option<Bar>
    var formData: Bag
    var initialized: bool
    var isResumeFlow: bool
    /** Whether the browser URL carries `resume=true`. */
    var resumeInUrl: bool
    var store: Store

    /**
     * After the bootstrap the sequence is non-empty. The controller's
     * operations need no more: a stale `nextStep` can leave the index past
     * the end (`StaleAdvanceLeavesRange`), and they still run.
     */
    predicate Ready()
      reads this
    {
      initialized && |steps| > 0
    }

    /**
     * A ready state whose index is below the sequence length. There is no
     * lower bound: a restored index may be negative.
     */
    predicate Valid()
      reads this
    {
      Ready() && index < |steps|
    }

    /** A valid state whose index also points into the sequence. */
    predicate InRange()
      reads this
    {
      Valid() && 0 <= index
    }

    /** The state `resetJourney` leaves behind (lines 281-298). */
    predicate IsReset()
      reads this
    {
      && userType == Ntb && journeyType == Some(Ntb)
      && formData == map[]
      && steps == InitialSteps(Ntb) && index == 0
      && branch.None? && bottomBar.None?
      && store == EmptyStore()
    }

    /** The provider as first rendered (lines 94-101, 144-175, 191-192), before the bootstrap effect. */
    constructor (saved: Store, resumeUrl: bool)
      ensures userType == Ntb && journeyType.None? && index == 0 && steps == []
      ensures showDashboard && error.None? && branch.None? && bottomBar.None?
      ensures formData == SeededDefaults()
      ensures !initialized && !isResumeFlow
      ensures resumeInUrl == resumeUrl && store == saved
    {
      userType := Ntb;
      journeyType := None;
      index := 0;
      steps := [];
      showDashboard := true;
      error := None;
      branch := None;
      bottomBar := None;
      formData := SeededDefaults();
      initialized := false;
      isResumeFlow := false;
      resumeInUrl := resumeUrl;
      store := saved;
    }

    /** `setJourneySteps` (lines 196-201): set and persist the sequence. */
    method SetJourneySteps(s: seq<Step>)
      modifies this`steps, this`store
      ensures steps == s
      ensures store == old(store).(journeySteps := Held(s))
    {
      steps := s;
      store := store.(journeySteps := Held(s));
    }

    /** `setStepIndex` (lines 203-208): set and persist the index. */
    method SetStepIndex(i: int)
      modifies this`index, this`store
      ensures index == i
      ensures store == old(store).(stepIndex := Held(i))
    {
      index := i;
      store := store.(stepIndex := Held(i));
    }

    /**
     * `setBranchComponent` (lines 213-224): set the branch and persist the key
     * bound to it, or remove the key when there is none.
     */
    method SetBranchComponent(c: Option<Component>)
      modifies this`branch, this`store
      ensures branch == c
      ensures store == old(store).(branchStepId := BranchKey(c))
      ensures c.None? ==> store.branchStepId.None?
    {
      branch := c;
      store := store.(branchStepId := BranchKey(c));
    }

    /** `setBottomBarContent`. */
    method SetBottomBar(b: Option<Bar>)
      modifies this`bottomBar
      ensures bottomBar == b
    {
      bottomBar := b;
    }

    /** `setShowDashboard`. */
    method SetShowDashboard(show: bool)
      modifies this`showDashboard
      ensures showDashboard == show
    {
      showDashboard := show;
    }

    /** `setError`. */
    method SetError(e: Option<ErrorInfo>)
      modifies this`error
      ensures error == e
    {
      error := e;
    }

    /**
     * `updateFormData` (lines 177-185): a shallow merge in which the update
     * wins, with the whole merged bag persisted.
     */
    method UpdateFormData(update: Bag)
      modifies this`formData, this`store
      ensures formData == Merge(old(formData), update)
      ensures formData.Keys == old(formData).Keys + update.Keys
      ensures forall k :: k in update ==> formData[k] == update[k]
      ensures forall k :: k in old(formData) && k !in update ==> formData[k] == old(formData)[k]
      ensures store == old(store).(formData := Held(formData))
    {
      formData := Merge(formData, update);
      store := store.(formData := Held(formData));
    }

    /** `setNomineeEnabled` (lines 227-229): only `wantsNominee` changes. */
    method SetNomineeEnabled(enabled: bool)
      modifies this`formData, this`store
      ensures formData == old(formData)[ "wantsNominee" := Bool(enabled)]
      ensures store == old(store).(formData := Held(formData))
    {
      UpdateFormData(map["wantsNominee" := Bool(enabled)]);
    }

    /**
     * The session-resume bootstrap (lines 319-370), run once on mount. It
     * applies the decision of `Resume` to the state and to local storage.
     */
    method Bootstrap()
      requires !initialized && index == 0 && branch.None? && bottomBar.None?
      modifies this`userType, this`journeyType, this`formData, this`steps, this`index,
        this`branch, this`bottomBar, this`store, this`isResumeFlow, this`initialized
      ensures Valid()
      ensures isResumeFlow == (old(isResumeFlow) || resumeInUrl)
      ensures match Resume(old(store), resumeInUrl)
        case Cold =>
          && journeyType == Some(Ntb) && steps == InitialSteps(Ntb)
          && userType == old(userType) && index == 0 && branch.None? && bottomBar.None?
          && formData == old(formData) && store == old(store)
        case Reset => IsReset()
        case Restore(u, jt, st, i, bag, br) =>
          && userType == u
          && journeyType == (if jt.Some? then jt else old(journeyType))
          && steps == st && index == i
          && formData == (if bag.Some? then bag.value else old(formData))
          && branch == br && bottomBar.None?
          && store == old(store).(journeySteps := Held(st))
    {
      if resumeInUrl {
        isResumeFlow := true;
      }
      var saved := store;
      if saved.userType.None? || saved.stepIndex.Missing? || saved.journeySteps.Missing? {
        journeyType := Some(Ntb);
        steps := InitialSteps(Ntb);
      } else if saved.journeySteps.Garbled? || saved.stepIndex.Garbled? {
        ResetJourney();
      } else {
        var parsed := Migrate(saved.journeySteps.value);
        var stored := saved.stepIndex.value;
        if |parsed| > 0 && stored < |parsed| && !saved.formData.Garbled? {
          RestoreSession(saved.userType.value, parsed, stored);
        } else {
          ResetJourney();
        }
      }
      initialized := true;
    }

    /**
     * The restore branch of the bootstrap (lines 340-356): the saved types,
     * the migrated sequence (persisted again), the saved form data when there
     * is any, the index (0 on a resume link, the stored one otherwise, clamped
     * into the sequence) and the saved branch when its key has a screen.
     */
    method RestoreSession(u: UserType, parsed: seq<Step>, stored: int)
      requires 0 < |parsed| && stored < |parsed| && !store.formData.Garbled? && branch.None?
      modifies this`userType, this`journeyType, this`formData, this`steps, this`index,
        this`branch, this`store
      ensures userType == u && steps == parsed
      ensures journeyType == (if old(store).journeyType.Some? then old(store).journeyType else old(journeyType))
      ensures formData == (if old(store).formData.Held? then old(store).formData.value else old(formData))
      ensures index == (if resumeInUrl then 0 else stored)
      ensures branch == (if old(store).branchStepId.Some? then ComponentFor(old(store).branchStepId.value) else None)
      ensures store == old(store).(journeySteps := Held(parsed))
    {
      var saved := store;
      userType := u;
      if saved.journeyType.Some? {
        journeyType := saved.journeyType;
      }
      steps := parsed;
      store := store.(journeySteps := Held(parsed));
      if saved.formData.Held? {
        formData := saved.formData.value;
      }
      if resumeInUrl {
        index := 0;
      } else {
        index := Min(stored, Max(0, |parsed| - 1));
      }
      RestoreBranch();
    }

    /**
     * The branch part of the restore (lines 354-356): a saved key with a
     * screen reopens that screen, and persisting it writes back the same key.
     */
    method RestoreBranch()
      requires branch.None?
      modifies this`branch, this`store
      ensures branch == (if store.branchStepId.Some? then ComponentFor(store.branchStepId.value) else None)
      ensures store == old(store)
    {
      var saved := store.branchStepId;
      if saved.Some? && saved.value in StepComponents() {
        var id := saved.value;
        KeyOfComponent(id);
        SetBranchComponent(Some(StepComponents()[id]));
      }
    }

    /**
     * `resetJourney` (lines 281-298): every key removed, both types back to
     * ntb, an empty form-data bag (not the seeded one), the ntb sequence at
     * index 0 (not persisted), no branch and no bottom bar.
     */
    method ResetJourney()
      modifies this`userType, this`journeyType, this`formData, this`steps, this`index,
        this`branch, this`bottomBar, this`store
      ensures IsReset()
      ensures |steps| > 0
    {
      store := EmptyStore();
      userType := Ntb;
      journeyType := Some(Ntb);
      formData := map[];
      steps := InitialSteps(Ntb);
      index := 0;
      SetBranchComponent(None);
      SetBottomBar(None);
    }

    /**
     * `setUserType` (lines 253-262): persists the type, then starts the ntb
     * sequence whatever the type is.
     */
    method SetUserType(t: UserType)
      requires Ready()
      modifies this`userType, this`steps, this`index, this`branch, this`store
      ensures InRange()
      ensures userType == t && steps == InitialSteps(Ntb) && index == 0 && branch.None?
      ensures store == old(store).(userType := Some(t), journeySteps := Held(steps),
                                   stepIndex := Held(0), branchStepId := None)
    {
      userType := t;
      store := store.(userType := Some(t));
      SetJourneySteps(InitialSteps(Ntb));
      SetStepIndex(0);
      SetBranchComponent(None);
    }

    /**
     * `setJourneyType` (lines 264-279): nothing happens when `t` is already the
     * journey type; otherwise the type is set and persisted and the journey
     * restarts at index 0 of its sequence with no branch. The bottom bar is
     * left alone.
     */
    method SetJourneyType(t: JourneyType)
      requires Ready()
      modifies this`journeyType, this`steps, this`index, this`branch, this`store
      ensures Ready() && (old(Valid()) ==> Valid()) && (old(InRange()) ==> InRange())
      ensures old(journeyType) != Some(t) ==> InRange()
      ensures old(journeyType) == Some(t) ==>
        journeyType == old(journeyType) && steps == old(steps) && index == old(index)
        && branch == old(branch) && store == old(store)
      ensures old(journeyType) != Some(t) ==>
        && journeyType == Some(t) && steps == InitialSteps(t) && index == 0 && branch.None?
        && store == old(store).(journeyType := Some(t), journeySteps := Held(steps),
                                stepIndex := Held(0), branchStepId := None)
    {
      if journeyType == Some(t) {
        return;
      }
      journeyType := Some(t);
      store := store.(journeyType := Some(t));
      SetJourneySteps(InitialSteps(t));
      SetStepIndex(0);
      SetBranchComponent(None);
    }

    /**
     * `startJourney` (lines 424-436): like `setJourneyType` without the guard,
     * and without persisting the type; merges the prefilled data when given,
     * hides the dashboard and clears the error and the bottom bar.
     */
    /** The first four setters of `startJourney` (lines 425-429): the type, its sequence at index 0, no branch. */
    method EnterJourney(t: JourneyType)
      requires Ready()
      modifies this`journeyType, this`steps, this`index, this`branch, this`store
      ensures InRange()
      ensures journeyType == Some(t) && steps == InitialSteps(t) && index == 0 && branch.None?
      ensures store == old(store).(journeySteps := Held(steps), stepIndex := Held(0), branchStepId := None)
    {
      var base := InitialSteps(t);
      journeyType, steps, index, branch := Some(t), base, 0, None;
      store := store.(journeySteps := Held(base), stepIndex := Held(0), branchStepId := None);
    }

    method StartJourney(t: JourneyType, prefilled: Option<Bag>)
      requires Ready()
      modifies this`journeyType, this`steps, this`index, this`branch, this`formData,
        this`showDashboard, this`error, this`bottomBar, this`store
      ensures InRange()
      ensures journeyType == Some(t) && steps == InitialSteps(t) && index == 0 && branch.None?
      ensures formData == if prefilled.Some? then Merge(old(formData), prefilled.value) else old(formData)
      ensures !showDashboard && error.None? && bottomBar.None?
      ensures store == old(store).(journeySteps := Held(steps), stepIndex := Held(0), branchStepId := None,
                                   formData := if prefilled.Some? then Held(formData) else old(store).formData)
    {
      EnterJourney(t);
      if prefilled.Some? {
        UpdateFormData(prefilled.value);
      }
      showDashboard, error, bottomBar := false, None, None;
    }

    /**
     * `switchToPhysicalKycFlow` (lines 231-241): with a journey type, truncate
     * the sequence to [welcome, kycChoice] and stand on its last step.
     */
    method SwitchToPhysicalKycFlow()
      requires Ready()
      modifies this`steps, this`index, this`branch, this`store
      ensures Ready() && (old(Valid()) ==> Valid()) && (old(InRange()) ==> InRange())
      ensures journeyType.Some? ==> InRange()
      ensures journeyType.None? ==>
        steps == old(steps) && index == old(index) && branch == old(branch) && store == old(store)
      ensures journeyType.Some? ==>
        && steps == [AllSteps()[Listed(Welcome)], AllSteps()[Listed(KycChoice)]]
        && index == 1 && branch.None?
        && store == old(store).(journeySteps := Held(steps), stepIndex := Held(1), branchStepId := None)
    {
      if journeyType.None? {
        return;
      }
      var truncated := PresentSteps([Listed(Welcome), Listed(KycChoice)]);
      assert truncated == [AllSteps()[Listed(Welcome)], AllSteps()[Listed(KycChoice)]];
      SetJourneySteps(truncated);
      SetStepIndex(Max(0, |truncated| - 1));
      SetBranchComponent(None);
    }

    /**
     * `switchToDigitalKycFlow` (lines 243-251): with a journey type, restore its
     * full sequence and stand just past kycChoice, or at 0 when it has none.
     */
    method SwitchToDigitalKycFlow()
      requires Ready()
      modifies this`steps, this`index, this`branch, this`store
      ensures Ready() && (old(Valid()) ==> Valid()) && (old(InRange()) ==> InRange())
      ensures journeyType.Some? ==> InRange()
      ensures journeyType.None? ==>
        steps == old(steps) && index == old(index) && branch == old(branch) && store == old(store)
      ensures journeyType.Some? ==>
        && steps == InitialSteps(journeyType.value)
        && index == DigitalTarget(journeyType.value)
        && branch.None?
        && store == old(store).(journeySteps := Held(steps), stepIndex := Held(index), branchStepId := None)
    {
      if journeyType.None? {
        return;
      }
      var base := InitialSteps(journeyType.value);
      var target := DigitalTarget(journeyType.value);
      steps, index, branch := base, target, None;
      store := store.(journeySteps := Held(base), stepIndex := Held(target), branchStepId := None);
    }

    /** The effect of one `nextStep` closed over `c`, between the state before it ran and now. */
    twostate predicate AdvancedFrom(c: Capture)
      reads this
    {
      var target := NextTarget(c, old(resumeInUrl), old(store.stepIndex));
      && branch.None? && bottomBar.None?
      && index == Landing(old(index), c, old(resumeInUrl), old(store.stepIndex))
      && resumeInUrl == (old(resumeInUrl) && !Jumps(c, old(resumeInUrl), old(store.stepIndex)))
      && store == old(store).(stepIndex := if target.Some? then Held(target.value) else old(store.stepIndex),
                              branchStepId := None)
    }

    /**
     * `AdvancedFrom(c)` for a handler that calls `updateFormData` just before
     * `nextStep`: the same move, with the form data it wrote persisted too.
     */
    twostate predicate AdvancedAfterSaving(c: Capture)
      reads this
    {
      var target := NextTarget(c, old(resumeInUrl), old(store.stepIndex));
      && branch.None? && bottomBar.None?
      && index == Landing(old(index), c, old(resumeInUrl), old(store.stepIndex))
      && resumeInUrl == (old(resumeInUrl) && !Jumps(c, old(resumeInUrl), old(store.stepIndex)))
      && store == old(store).(formData := Held(formData),
                              stepIndex := if target.Some? then Held(target.value) else old(store.stepIndex),
                              branchStepId := None)
    }

    /**
     * `nextStep` (lines 373-397) as a callback closed over `c`: leave any
     * branch, clear the bottom bar, then either make the one-time resume jump
     * or advance past the captured index unless it was the last. The URL
     * flag and the stored index are read when it runs. Only a capture of the
     * current sequence length is sure to keep the index inside it.
     */
    method NextStepFrom(c: Capture)
      modifies this`index, this`branch, this`bottomBar, this`store, this`resumeInUrl
      ensures AdvancedFrom(c)
      ensures old(Valid()) && c.length == |steps| ==> Valid()
      ensures old(InRange()) && c == Capture(old(index), |steps|) ==> InRange()
    {
      SetBranchComponent(None);
      SetBottomBar(None);
      var saved := store.stepIndex;
      if resumeInUrl && c.index == 0 && saved.Held? {
        var target := saved.value;
        if target > 0 && target < c.length {
          SetStepIndex(target);
          resumeInUrl := false;
          return;
        }
      }
      if c.index < c.length - 1 {
        SetStepIndex(c.index + 1);
      }
    }

    /**
     * `nextStep` called from the current render: the one-time resume jump,
     * or one step forward unless already on the last step.
     */
    method NextStep()
      requires Ready()
      modifies this`index, this`branch, this`bottomBar, this`store, this`resumeInUrl
      ensures Ready() && (old(Valid()) ==> Valid()) && (old(InRange()) ==> InRange())
      ensures AdvancedFrom(Capture(old(index), |steps|))
      ensures var jump := old(resumeInUrl) && old(index) == 0 && old(store.stepIndex).Held?
                          && 0 < old(store.stepIndex).value < |steps|;
        if jump then
          index == old(store.stepIndex).value && !resumeInUrl && store.stepIndex == old(store.stepIndex)
        else
          && resumeInUrl == old(resumeInUrl)
          && (old(index) < |steps| - 1 ==> index == old(index) + 1 && store.stepIndex == Held(index))
          && (old(index) >= |steps| - 1 ==> index == old(index) && store.stepIndex == old(store.stepIndex))
    {
      NextStepFrom(Capture(index, |steps|));
    }

    /** `prevStep` (lines 399-405): leave any branch, clear the bottom bar, step back unless at 0. */
    method PrevStep()
      requires Ready()
      modifies this`index, this`branch, this`bottomBar, this`store
      ensures Ready() && (old(Valid()) ==> Valid()) && (old(InRange()) ==> InRange())
      ensures branch.None? && bottomBar.None?
      ensures old(index) > 0 ==> index == old(index) - 1 && store == old(store).(stepIndex := Held(index), branchStepId := None)
      ensures old(index) <= 0 ==> index == old(index) && store == old(store).(branchStepId := None)
    {
      SetBranchComponent(None);
      SetBottomBar(None);
      if index > 0 {
        SetStepIndex(index - 1);
      }
    }

    /**
     * `goToStep` (lines 407-422): an id without a screen changes nothing; an
     * id in the sequence moves the index there and leaves any branch; any
     * other routable id becomes the branch screen, its id persisted, with
     * the index unchanged. Both moves clear the bottom bar.
     */
    method GoToStep(id: StepId)
      requires Ready()
      modifies this`index, this`branch, this`bottomBar, this`store
      ensures Ready() && (old(Valid()) ==> Valid()) && (old(InRange()) ==> InRange())
      ensures id in StepComponents() && Contains(steps, id) ==> InRange()
      ensures id !in StepComponents() ==>
        index == old(index) && branch == old(branch) && bottomBar == old(bottomBar) && store == old(store)
      ensures id in StepComponents() && Contains(steps, id) ==>
        && index == IndexOfId(steps, id) && steps[index].id == id && branch.None? && bottomBar.None?
        && store == old(store).(stepIndex := Held(index), branchStepId := None)
      ensures id in StepComponents() && !Contains(steps, id) ==>
        && index == old(index) && branch == Some(StepComponents()[id]) && bottomBar.None?
        && store == old(store).(branchStepId := Some(id))
    {
      var component := ComponentFor(id);
      if component.None? {
        return;
      }
      var mainJourneyIndex := IndexOfId(steps, id);
      if mainJourneyIndex != -1 {
        SetBranchComponent(None);
        SetStepIndex(mainJourneyIndex);
      } else {
        KeyOfComponent(id);
        SetBranchComponent(component);
      }
      SetBottomBar(None);
    }

    /** The screen `CurrentStepComponent` names for the current state. */
    function Current(): (r: Option<Component>)
      reads this
      ensures InRange() && steps[index].id in StepComponents() ==> r == Some(StepComponents()[steps[index].id])
      ensures index < 0 ==> r.None?
    {
      CurrentComponent(steps, index)
    }
  }
}
