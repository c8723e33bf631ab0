/**
 * The decision whether the ad banner may be shown, from the consent state the
 * consent SDK reports. Two variants exist in the app:
 *  - the UIKit screen is edge-triggered: it raises the banner flag once, on the
 *    first move from "no decision" to a decided state, and never lowers it;
 *  - the SwiftUI screen is level-triggered: the flag mirrors the current state.
 * Each variant is a step function on the state it keeps; a run folds a step
 * over a sequence of reports, one per callback.
 */
module AdGate {
  import opened Wrappers

  /** The consent state reported by the SDK; the app only tells "no decision yet" apart. */
  datatype ConsentState = GdprNoDecision | Other(name: string)

  /** A report lets ads be shown when a state is present and it is not "no decision". */
  predicate AdsAllowed(reported: Option<ConsentState>) {
    reported.Some? && reported.value != GdprNoDecision
  }

  // ---------------------------------------------------------------------------
  // Edge-triggered one-shot gate (UIKit screen with the banner)
  // ---------------------------------------------------------------------------

  datatype OneShotGate = OneShotGate(lastConsentState: Option<ConsentState>, shouldShowAdsBanner: bool)

  /** The fields' declared initial values. */
  const InitialOneShot := OneShotGate(Some(GdprNoDecision), false)

  /** The gate waits for the move away from "no decision". */
  predicate Armed(g: OneShotGate) {
    g.lastConsentState == Some(GdprNoDecision)
  }

  /** The step raises the banner: a decided state arrives while the gate is armed. */
  predicate Fires(g: OneShotGate, reported: Option<ConsentState>) {
    Armed(g) && AdsAllowed(reported)
  }

  /** Reachable gate states: a state is remembered, and once disarmed the banner is up. */
  predicate Consistent(g: OneShotGate) {
    g.lastConsentState.Some? && (!Armed(g) ==> g.shouldShowAdsBanner)
  }

  /** One call of `checkIfCanShowAds` on the UIKit screen. */
  function OneShotStep(g: OneShotGate, reported: Option<ConsentState>): (r: OneShotGate)
    ensures r.shouldShowAdsBanner == (g.shouldShowAdsBanner || Fires(g, reported))
    ensures reported != Some(GdprNoDecision) && !Fires(g, reported) ==> r == g
    ensures Consistent(g) ==> Consistent(r)
    ensures Consistent(g) && AdsAllowed(reported) ==> r.shouldShowAdsBanner
  {
    match reported
    case None => g
    case Some(state) =>
      if state == GdprNoDecision then g.(lastConsentState := reported)
      else if g.lastConsentState != Some(GdprNoDecision) then g
      else OneShotGate(reported, true)
  }

  function OneShotRun(g: OneShotGate, reports: seq<Option<ConsentState>>): OneShotGate
    decreases |reports|
  {
    if reports == [] then g else OneShotRun(OneShotStep(g, reports[0]), reports[1..])
  }

  /** How many steps of a run raise the banner. */
  function EdgeCount(g: OneShotGate, reports: seq<Option<ConsentState>>): nat
    decreases |reports|
  {
    if reports == [] then 0
    else (if Fires(g, reports[0]) then 1 else 0) + EdgeCount(OneShotStep(g, reports[0]), reports[1..])
  }

  /** No report in the run goes back to "no decision". */
  predicate NeverNoDecision(reports: seq<Option<ConsentState>>) {
    forall i :: 0 <= i < |reports| ==> reports[i] != Some(GdprNoDecision)
  }

  /** A disarmed gate ignores every report that is not "no decision": repeated decided updates change nothing. */
  lemma {:induction false} DisarmedGateIgnoresDecidedUpdates(g: OneShotGate, reports: seq<Option<ConsentState>>)
    requires !Armed(g)
    requires NeverNoDecision(reports)
    ensures OneShotRun(g, reports) == g
    ensures EdgeCount(g, reports) == 0
    decreases |reports|
  {
    if reports != [] {
      assert reports[0] != Some(GdprNoDecision);
      assert NeverNoDecision(reports[1..]) by {
        forall i | 0 <= i < |reports[1..]| ensures reports[1..][i] != Some(GdprNoDecision) {
          assert reports[1..][i] == reports[i + 1];
        }
      }
      DisarmedGateIgnoresDecidedUpdates(g, reports[1..]);
    }
  }

  /** Along reports that never return to "no decision", the banner is raised at most once. */
  lemma {:induction false} OneShotFiresAtMostOnce(g: OneShotGate, reports: seq<Option<ConsentState>>)
    requires NeverNoDecision(reports)
    ensures EdgeCount(g, reports) <= 1
    decreases |reports|
  {
    if reports != [] {
      var next := OneShotStep(g, reports[0]);
      assert NeverNoDecision(reports[1..]) by {
        forall i | 0 <= i < |reports[1..]| ensures reports[1..][i] != Some(GdprNoDecision) {
          assert reports[1..][i] == reports[i + 1];
        }
      }
      if Fires(g, reports[0]) {
        assert !Armed(next);
        DisarmedGateIgnoresDecidedUpdates(next, reports[1..]);
      } else {
        OneShotFiresAtMostOnce(next, reports[1..]);
      }
    }
  }

  /** From an armed gate, a run that never returns to "no decision" and holds a decided report raises the banner exactly once. */
  lemma {:induction false} OneShotFiresExactlyOnce(g: OneShotGate, reports: seq<Option<ConsentState>>)
    requires Armed(g)
    requires NeverNoDecision(reports)
    requires exists i :: 0 <= i < |reports| && AdsAllowed(reports[i])
    ensures EdgeCount(g, reports) == 1
    decreases |reports|
  {
    var i :| 0 <= i < |reports| && AdsAllowed(reports[i]);
    var next := OneShotStep(g, reports[0]);
    assert NeverNoDecision(reports[1..]) by {
      forall j | 0 <= j < |reports[1..]| ensures reports[1..][j] != Some(GdprNoDecision) {
        assert reports[1..][j] == reports[j + 1];
      }
    }
    if Fires(g, reports[0]) {
      DisarmedGateIgnoresDecidedUpdates(next, reports[1..]);
    } else {
      assert reports[0].None? && next == g;
      assert i > 0 && reports[1..][i - 1] == reports[i];
      OneShotFiresExactlyOnce(next, reports[1..]);
    }
  }

  /** Only along such runs: a return to "no decision" re-arms the gate, and the next decided report raises the banner again. */
  lemma OneShotFiresAgainAfterNoDecision()
    ensures EdgeCount(InitialOneShot, [Some(Other("a")), Some(GdprNoDecision), Some(Other("b"))]) == 2
  {
    var reports := [Some(Other("a")), Some(GdprNoDecision), Some(Other("b"))];
    assert reports[1..][1..][1..] == [];
  }

  /** The banner is up after a run exactly when it was up before or some step raised it. */
  lemma {:induction false} OneShotBannerIffFired(g: OneShotGate, reports: seq<Option<ConsentState>>)
    ensures OneShotRun(g, reports).shouldShowAdsBanner == (g.shouldShowAdsBanner || EdgeCount(g, reports) > 0)
    decreases |reports|
  {
    if reports != [] {
      OneShotBannerIffFired(OneShotStep(g, reports[0]), reports[1..]);
    }
  }

  /** The banner flag is never reset: once raised it stays raised along any run. */
  lemma OneShotBannerStaysRaised(g: OneShotGate, reports: seq<Option<ConsentState>>)
    requires g.shouldShowAdsBanner
    ensures OneShotRun(g, reports).shouldShowAdsBanner
  {
    OneShotBannerIffFired(g, reports);
  }

  /** Every state a run reaches from the initial gate is consistent. */
  lemma {:induction false} OneShotRunConsistent(g: OneShotGate, reports: seq<Option<ConsentState>>)
    requires Consistent(g)
    ensures Consistent(OneShotRun(g, reports))
    decreases |reports|
  {
    if reports != [] {
      OneShotRunConsistent(OneShotStep(g, reports[0]), reports[1..]);
    }
  }

  // ---------------------------------------------------------------------------
  // Level-triggered gate (SwiftUI screen with the banner)
  // ---------------------------------------------------------------------------

  /** The banner flag after a run of `checkIfCanShowAds` calls. */
  function LevelRun(banner: bool, reports: seq<Option<ConsentState>>): bool
    decreases |reports|
  {
    if reports == [] then banner else LevelRun(AdsAllowed(reports[0]), reports[1..])
  }

  /** After a run the level-triggered flag reflects the last report only. */
  lemma {:induction false} LevelRunFollowsLastReport(banner: bool, reports: seq<Option<ConsentState>>)
    ensures LevelRun(banner, reports) == if reports == [] then banner else AdsAllowed(reports[|reports| - 1])
    decreases |reports|
  {
    if reports != [] {
      LevelRunFollowsLastReport(AdsAllowed(reports[0]), reports[1..]);
    }
  }

  // ---------------------------------------------------------------------------
  // The difference between the two
  // ---------------------------------------------------------------------------

  /** From any consistent one-shot state: whenever the level-triggered flag would be up, the one-shot flag is up too. */
  lemma {:induction false} OneShotCoversLevel(g: OneShotGate, banner: bool, reports: seq<Option<ConsentState>>)
    requires Consistent(g)
    requires LevelRun(banner, reports)
    requires reports != []
    ensures OneShotRun(g, reports).shouldShowAdsBanner
    decreases |reports|
  {
    var next := OneShotStep(g, reports[0]);
    if |reports| == 1 {
      assert reports[1..] == [];
    } else {
      OneShotCoversLevel(next, AdsAllowed(reports[0]), reports[1..]);
    }
  }

  /** The converse fails: when the state goes back to "no decision", the one-shot banner stays while the level-triggered one drops. */
  lemma OneShotKeepsWhatLevelDrops()
    ensures var reports := [Some(Other("gdprDecisionObtained")), Some(GdprNoDecision)];
            OneShotRun(InitialOneShot, reports).shouldShowAdsBanner && !LevelRun(false, reports)
  {
    var reports := [Some(Other("gdprDecisionObtained")), Some(GdprNoDecision)];
    assert reports[1..][1..] == [];
  }
}
