/**
 * The asset preload registry shared through a React context: components
 * register asset ids and mark them loaded; the provider leaves its loading
 * state once every registered asset counts as loaded and a minimum display
 * time has passed, after a short settling delay.
 *
 * Timers are explicit events: `FireMinTimer` is the 2000 ms minimum-time
 * timer, armed at mount; `FireFinishTimer` is the 500 ms finish timer,
 * which does nothing when no finish timer is pending.
 */
module Preload {
  import opened Wrappers

  /** The message `usePreload` throws outside a provider. */
  const UsePreloadError: string := "usePreload must be used within a PreloadProvider"

  /**
   * The completion effect's condition on the registry size, loaded size and
   * minimum-time flag: with assets registered, at least as many loaded as
   * registered; with none registered, only the timer.
   */
  function ReadyToFinish(total: nat, count: nat, minTimeElapsed: bool): (ready: bool)
    ensures ready ==> minTimeElapsed
    ensures total > 0 ==> (ready <==> minTimeElapsed && count >= total)
    ensures total == 0 ==> (ready <==> minTimeElapsed)
  {
    var allLoaded := total > 0 && count >= total;
    var fallbackFinish := total == 0 && minTimeElapsed;
    minTimeElapsed && (allLoaded || fallbackFinish)
  }

  /**
   * The progress the context exposes: the loaded/registered ratio (0 with
   * nothing registered), forced to 1 once loading has finished.
   */
  function LoadProgress(total: nat, count: nat, isLoading: bool): (p: real)
    ensures !isLoading ==> p == 1.0
    ensures isLoading && total == 0 ==> p == 0.0
    ensures isLoading && total > 0 ==> p * total as real == count as real
    ensures 0.0 <= p
  {
    if !isLoading then 1.0
    else if total > 0 then count as real / total as real
    else 0.0
  }

  /** The progress stays within 0..1 when no more ids are loaded than registered. */
  lemma LoadProgressAtMostOne(total: nat, count: nat, isLoading: bool)
    requires count <= total
    ensures LoadProgress(total, count, isLoading) <= 1.0
  {
    if isLoading && total > 0 {
      assert count as real / total as real <= total as real / total as real;
    }
  }

  /** More loaded ids against the same registry never lower the progress. */
  lemma MoreLoadedNoLower(total: nat, c1: nat, c2: nat, isLoading: bool)
    requires c1 <= c2
    ensures LoadProgress(total, c1, isLoading) <= LoadProgress(total, c2, isLoading)
  {
    if isLoading && total > 0 {
      assert c1 as real / total as real <= c2 as real / total as real;
    }
  }

  /**
   * The progress is not monotone over time: registering a further asset
   * after the first one has loaded drops it from 1 back to 1/2.
   */
  lemma LateRegistrationLowersProgress()
    ensures LoadProgress(1, 1, true) == 1.0
    ensures LoadProgress(2, 1, true) == 0.5
    ensures LoadProgress(2, 1, true) < LoadProgress(1, 1, true)
  {
  }

  /** A subset has no more elements than its superset. */
  lemma SubsetNoLarger(a: set<string>, b: set<string>)
    requires a <= b
    ensures |a| <= |b|
  {
    assert b == a + (b - a);
  }

  /**
   * While every loaded id is also registered, the progress stays within
   * 0..1.
   */
  lemma ProgressWithinUnitWhenLoadedRegistered(registry: set<string>, loaded: set<string>, isLoading: bool)
    requires loaded <= registry
    ensures 0.0 <= LoadProgress(|registry|, |loaded|, isLoading) <= 1.0
  {
    SubsetNoLarger(loaded, registry);
    LoadProgressAtMostOne(|registry|, |loaded|, isLoading);
  }

  /**
   * Completion compares counts, not membership: an id loaded without being
   * registered stands in for a registered one that never loaded, and
   * pushes the progress past 1.
   */
  lemma CountsNotMembership()
    ensures var registry, loaded := {"hero"}, {"other"};
      && "hero" !in loaded
      && ReadyToFinish(|registry|, |loaded|, true)
    ensures var registry, loaded := {"hero"}, {"hero", "other"};
      LoadProgress(|registry|, |loaded|, true) == 2.0
  {
    var loaded := {"hero", "other"};
    assert "hero" != "other";
    assert |loaded| == 2;
  }

  /** The value the context hands to consumers. */
  datatype PreloadValue = PreloadValue(isLoading: bool, progress: real, totalAssets: nat, loadedAssets: nat)

  /** `usePreload`: the context value, or the error thrown outside a provider. */
  function UsePreload(context: Option<PreloadValue>): (r: Result<PreloadValue, string>)
    ensures r.Success? <==> context.Some?
    ensures r.Success? ==> r.value == context.value
    ensures r.Failure? ==> r.error == UsePreloadError
  {
    match context
    case Some(v) => Success(v)
    case None => Failure(UsePreloadError)
  }

  /** The provider's state: the two id sets, the two flags and the pending finish timer. */
  class PreloadProvider {
    var registry: set<string>
    var loaded: set<string>
    var isLoading: bool
    var minTimeElapsed: bool
    var finishTimerPending: bool

    /**
     * Finishing only ever happens after the minimum time, and a pending
     * finish timer always reflects the current completion condition,
     * because every change of a dependency cancels it and re-evaluates.
     */
    ghost predicate Valid()
      reads this
    {
      && (!isLoading ==> minTimeElapsed)
      && (finishTimerPending ==> ReadyToFinish(|registry|, |loaded|, minTimeElapsed))
    }

    /** Mount: empty sets, loading, minimum-time timer started. */
    constructor ()
      ensures Valid()
      ensures registry == {} && loaded == {}
      ensures isLoading && !minTimeElapsed && !finishTimerPending
    {
      registry := {};
      loaded := {};
      isLoading := true;
      minTimeElapsed := false;
      finishTimerPending := false;
    }

    /**
     * The completion effect, run when one of its dependencies (registry
     * size, loaded size, minimum-time flag) differs from the values it last
     * ran with: the previous finish timer is cleared and a new one is
     * scheduled if the condition holds.
     */
    method CompletionEffect(prevTotal: nat, prevCount: nat, prevMinTimeElapsed: bool)
      requires prevTotal == |registry| && prevCount == |loaded| && prevMinTimeElapsed == minTimeElapsed ==> Valid()
      requires !isLoading ==> minTimeElapsed
      modifies this
      ensures Valid()
      ensures registry == old(registry) && loaded == old(loaded)
      ensures isLoading == old(isLoading) && minTimeElapsed == old(minTimeElapsed)
      ensures prevTotal == |registry| && prevCount == |loaded| && prevMinTimeElapsed == minTimeElapsed ==>
        finishTimerPending == old(finishTimerPending)
      ensures !(prevTotal == |registry| && prevCount == |loaded| && prevMinTimeElapsed == minTimeElapsed) ==>
        finishTimerPending == ReadyToFinish(|registry|, |loaded|, minTimeElapsed)
    {
      if prevTotal == |registry| && prevCount == |loaded| && prevMinTimeElapsed == minTimeElapsed {
        return;
      }
      finishTimerPending := false;
      if minTimeElapsed {
        var total, count := |registry|, |loaded|;
        var allLoaded := total > 0 && count >= total;
        var fallbackFinish := total == 0 && minTimeElapsed;
        if allLoaded || fallbackFinish {
          finishTimerPending := true;
        }
      }
    }

    /** `registerAsset(id)`: add the id to the registry. */
    method RegisterAsset(id: string)
      requires Valid()
      modifies this
      ensures Valid()
      ensures registry == old(registry) + {id}
      ensures loaded == old(loaded) && isLoading == old(isLoading) && minTimeElapsed == old(minTimeElapsed)
      ensures id in old(registry) ==> finishTimerPending == old(finishTimerPending)
      ensures id !in old(registry) ==> finishTimerPending == ReadyToFinish(|registry|, |loaded|, minTimeElapsed)
    {
      var total, count, minTime := |registry|, |loaded|, minTimeElapsed;
      if id in registry {
        assert registry + {id} == registry;
      } else {
        assert |registry + {id}| == |registry| + 1;
      }
      registry := registry + {id};
      CompletionEffect(total, count, minTime);
    }

    /** `markLoaded(id)`: add the id to the loaded set (whether registered or not). */
    method MarkLoaded(id: string)
      requires Valid()
      modifies this
      ensures Valid()
      ensures loaded == old(loaded) + {id}
      ensures registry == old(registry) && isLoading == old(isLoading) && minTimeElapsed == old(minTimeElapsed)
      ensures id in old(loaded) ==> finishTimerPending == old(finishTimerPending)
      ensures id !in old(loaded) ==> finishTimerPending == ReadyToFinish(|registry|, |loaded|, minTimeElapsed)
    {
      var total, count, minTime := |registry|, |loaded|, minTimeElapsed;
      if id in loaded {
        assert loaded + {id} == loaded;
      } else {
        assert |loaded + {id}| == |loaded| + 1;
      }
      loaded := loaded + {id};
      CompletionEffect(total, count, minTime);
    }

    /** The 2000 ms minimum-time timer fires. */
    method FireMinTimer()
      requires Valid()
      modifies this
      ensures Valid()
      ensures minTimeElapsed
      ensures registry == old(registry) && loaded == old(loaded) && isLoading == old(isLoading)
      ensures !old(minTimeElapsed) ==> finishTimerPending == ReadyToFinish(|registry|, |loaded|, true)
      ensures old(minTimeElapsed) ==> finishTimerPending == old(finishTimerPending)
    {
      var total, count, minTime := |registry|, |loaded|, minTimeElapsed;
      minTimeElapsed := true;
      CompletionEffect(total, count, minTime);
    }

    /** The 500 ms finish timer fires, if one is pending: leave the loading state. */
    method FireFinishTimer()
      requires Valid()
      modifies this
      ensures Valid()
      ensures isLoading == (old(isLoading) && !old(finishTimerPending))
      ensures old(isLoading) && !isLoading ==> ReadyToFinish(|registry|, |loaded|, minTimeElapsed)
      ensures !finishTimerPending
      ensures registry == old(registry) && loaded == old(loaded) && minTimeElapsed == old(minTimeElapsed)
    {
      if finishTimerPending {
        isLoading := false;
        finishTimerPending := false;
      }
    }

    /** The value the provider passes down the context. */
    function Value(): (v: PreloadValue)
      reads this
      ensures v.totalAssets == |registry| && v.loadedAssets == |loaded| && v.isLoading == isLoading
      ensures !isLoading ==> v.progress == 1.0
      ensures loaded <= registry ==> 0.0 <= v.progress <= 1.0
    {
      var v := PreloadValue(isLoading, LoadProgress(|registry|, |loaded|, isLoading), |registry|, |loaded|);
      if loaded <= registry then
        ProgressWithinUnitWhenLoadedRegistered(registry, loaded, isLoading);
        v
      else
        v
    }
  }
}
