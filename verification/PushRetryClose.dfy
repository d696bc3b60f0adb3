/**
 What Manager.Close leaves behind (pkg/pushretry/manager.go lines 110-117). Its Range visits every key that stays in the
 map while it runs; keys stored meanwhile it may or may not visit.
 */
module PushRetryClose {
  import opened Common
  import opened PushRetryModel
  import opened PushRetryTheorems

  /** The key is missing from the map at some moment of the run. */
  predicate GoneOnce(s: State, acts: seq<Action>, key: string)
    requires CanRun(s, acts)
    decreases |acts|
  {
    key !in s.tasks || (acts != [] && GoneOnce(Step(s, acts[0]), acts[1..], key))
  }

  /** The run contains a whole sweep: whatever was in the map at its start has been deleted by somebody. */
  ghost predicate Sweeps(s: State, acts: seq<Action>)
    requires CanRun(s, acts)
  {
    forall key :: key in s.tasks ==> GoneOnce(s, acts, key)
  }

  /** A key that is missing once and present in the end of a closed manager was stored by a Start already under way. */
  lemma {:induction false} BackByLateStart(s: State, acts: seq<Action>, key: string)
    requires s.closed && CanRun(s, acts) && GoneOnce(s, acts, key) && key in Run(s, acts).tasks
    ensures Starting(s, key)
    decreases |acts|
  {
    if key !in s.tasks {
      ClosedMapGrowsOnlyByLateStarts(s, acts);
    } else {
      hide Step, Enabled;
      ClosedStep(s, acts[0]);
      BackByLateStart(Step(s, acts[0]), acts[1..], key);
    }
  }

  lemma {:induction false} GoneAtTheEnd(s: State, acts: seq<Action>, key: string)
    requires CanRun(s, acts) && key !in Run(s, acts).tasks
    ensures GoneOnce(s, acts, key)
    decreases |acts|
  {
    hide Step, Enabled;
    if acts != [] {
      GoneAtTheEnd(Step(s, acts[0]), acts[1..], key);
    }
  }

  lemma {:induction false} GoneStaysGone(s: State, acts: seq<Action>, more: seq<Action>, key: string)
    requires CanRun(s, acts) && CanRun(s, acts + more) && GoneOnce(s, acts, key)
    ensures GoneOnce(s, acts + more, key)
    decreases |acts|
  {
    hide Step, Enabled;
    if acts != [] && key in s.tasks {
      assert (acts + more)[0] == acts[0] && (acts + more)[1..] == acts[1..] + more;
      GoneStaysGone(Step(s, acts[0]), acts[1..], more, key);
    }
  }

  lemma DeleteQuietly(s: State, d: nat, key: string)
    requires d !in s.deleters && key in s.tasks
    ensures var s' := DeleteStep(s, d, key);
            s'.tasks == s.tasks - {key} && s'.starters == s.starters && s'.adders == s.adders
  {
  }

  /** A sweep that nobody disturbs. */
  lemma {:induction false} DeleteAll(s: State) returns (acts: seq<Action>)
    ensures CanRun(s, acts)
    ensures var s' := Run(s, acts); s'.tasks == map[] && s'.starters == s.starters && s'.adders == s.adders
    decreases |s.tasks|
  {
    if s.tasks == map[] {
      acts := [];
    } else {
      assert s.tasks.Keys != {};
      var key := Pick(s.tasks.Keys);
      var d := FreshId(s.deleters.Keys);
      MapShrinks(s.tasks, key);
      DeleteQuietly(s, d, key);
      hide DeleteStep;
      var rest := DeleteAll(DeleteStep(s, d, key));
      acts := [Delete(d, key)] + rest;
      assert acts[0] == Delete(d, key) && acts[1..] == rest;
    }
  }

  /** Some run with a whole sweep in it, and whatever may follow, ends with the key in the map. */
  ghost predicate Survives(s: State, key: string) {
    exists acts :: CanRun(s, acts) && Sweeps(s, acts) && key in Run(s, acts).tasks
  }

  lemma LateStartSurvives(s: State, key: string)
    requires Separate(s) && Starting(s, key)
    ensures Survives(s, key)
  {
    var c :| c in s.starters && s.starters[c].key == key;
    var sweep := DeleteAll(s);
    var acts := Then(s, sweep, Store(c));
    assert key in Run(s, acts).tasks;
    hide CanRun, Run, Step, Enabled;
    forall k | k in s.tasks ensures GoneOnce(s, acts, k) {
      GoneAtTheEnd(s, sweep, k);
      GoneStaysGone(s, sweep, [Store(c)], k);
    }
  }

  lemma SurvivorWasStarting(s: State, key: string)
    requires s.closed && Survives(s, key)
    ensures Starting(s, key)
  {
    hide GoneOnce, Starting;
    var acts :| CanRun(s, acts) && Sweeps(s, acts) && key in Run(s, acts).tasks;
    if key !in s.tasks {
      NotThereIsGone(s, acts, key);
    }
    BackByLateStart(s, acts, key);
  }

  lemma NotThereIsGone(s: State, acts: seq<Action>, key: string)
    requires CanRun(s, acts) && key !in s.tasks
    ensures GoneOnce(s, acts, key)
  {
  }

  /** From any reachable state of a closed manager: a key can outlive Close's sweep, whether it is stored during the
      sweep or after it, if and only if a Start for that key is past its closed check. */
  lemma SurvivesCloseIff(maxRetries: int, acts: seq<Action>, key: string)
    requires CanRun(Init(maxRetries), acts) && Run(Init(maxRetries), acts).closed
    ensures Survives(Run(Init(maxRetries), acts), key) <==> Starting(Run(Init(maxRetries), acts), key)
  {
    RunSeparate(Init(maxRetries), acts);
    var s := Run(Init(maxRetries), acts);
    hide Survives, Starting, Separate, CanRun, Run;
    if Survives(s, key) {
      SurvivorWasStarting(s, key);
    }
    if Starting(s, key) {
      LateStartSurvives(s, key);
    }
  }

  /** So after the closed flag is set every sweep leaves the map empty for good if and only if no Start at all is between
      its closed check and its store. */
  lemma CloseIsFinalIff(maxRetries: int, acts: seq<Action>)
    requires CanRun(Init(maxRetries), acts) && Run(Init(maxRetries), acts).closed
    ensures var s := Run(Init(maxRetries), acts);
            (forall more :: CanRun(s, more) && Sweeps(s, more) ==> Run(s, more).tasks == map[]) <==> s.starters == map[]
  {
    var s := Run(Init(maxRetries), acts);
    hide Sweeps, CanRun, Run;
    if s.starters != map[] {
      assert s.starters.Keys != {};
      var c := Pick(s.starters.Keys);
      var key := s.starters[c].key;
      assert Starting(s, key);
      SurvivesCloseIff(maxRetries, acts, key);
      var more :| CanRun(s, more) && Sweeps(s, more) && key in Run(s, more).tasks;
      assert Run(s, more).tasks != map[];
    } else {
      forall more | CanRun(s, more) && Sweeps(s, more) ensures Run(s, more).tasks == map[] {
        forall key ensures key !in Run(s, more).tasks {
          SurvivesCloseIff(maxRetries, acts, key);
        }
      }
    }
  }

  /** Such a state is reachable: a Start that overtakes Close survives it. */
  lemma StartCanSurviveClose(maxRetries: int)
    ensures exists acts :: CanRun(Init(maxRetries), acts) && Run(Init(maxRetries), acts).closed
                           && Run(Init(maxRetries), acts).tasks == map[] && Run(Init(maxRetries), acts).starters != map[]
  {
    var s0 := Init(maxRetries);
    var acts := Then(s0, [], Enter(0, "k", "l"));
    acts := Then(s0, acts, SetClosed);
    assert 0 in Run(s0, acts).starters;
  }
}
