/** The main deploy as it runs, phase after phase, on the checkpoint in memory and the one on disk. */
module Deployer {
  import opened Options
  import opened Checkpoint
  import opened MainDeploy

  class Deployer {
    const script: Script
    const checkpoint: Checkpoint
    const store: Store
    var headscaleRestarted: bool
    var events: seq<Event>
    var end: Option<End>

    constructor (script: Script, checkpoint: Checkpoint, store: Store)
      ensures this.script == script && this.checkpoint == checkpoint && this.store == store
      ensures !headscaleRestarted && events == [] && end.None?
    {
      this.script, this.checkpoint, this.store := script, checkpoint, store;
      headscaleRestarted, events, end := false, [], None;
    }

    function Now(): Run
      reads this, checkpoint, store
    {
      Run(checkpoint.View(), store.saved, headscaleRestarted, events, end)
    }

    method WriteFailure(why: End, works: bool)
      modifies this, checkpoint, store
      ensures Now() == Fail(old(Now()), why, works)
    {
      checkpoint.RecordFailure(Some("failed"));
      var _ := store.Save(checkpoint.View(), works);
      end := Some(why);
    }

    method RecordMark(m: Mark, works: bool)
      modifies this, checkpoint, store
      ensures Now() == Recorded(old(Now()), m, works)
    {
      var _ := checkpoint.MarkCompleted(m);
      checkpoint.RecordFailure(None);
      var saved := store.Save(checkpoint.View(), works);
      if !saved {
        end := Some(NotRecorded(m));
      }
    }

    method PlainPhase(m: Mark)
      requires end.None?
      modifies this, checkpoint, store
      ensures Now() == Plain(old(Now()), m, script.Answer(m))
    {
      var t := script.Answer(m);
      if t.work.Killed? {
        end := Some(Died);
      } else if !t.work.Done? {
        WriteFailure(Failed(m), t.saved);
      } else {
        events := events + [Ran(m)];
        RecordMark(m, t.saved);
      }
    }

    method RuntimeAssetsPhase()
      requires end.None?
      modifies this, checkpoint, store
      ensures Now() == InstallAssets(old(Now()), script)
    {
      var t := script.Answer(RuntimeAssetsInstalled);
      if t.work.Killed? {
        end := Some(Died);
        return;
      }
      checkpoint.RecordModifiedPaths(script.paths);
      checkpoint.RecordActivations(script.activations);
      PlainPhase(RuntimeAssetsInstalled);
    }

    method Defer(m: Mark, marker: Mark)
      requires end.None? && script.Answer(m).work.Absent?
      modifies this, checkpoint, store
      ensures Now() == Deferrable(old(Now()), m, marker, script.Answer(m))
    {
      var t := script.Answer(m);
      RecordMark(marker, t.saved);
      if t.saved {
        WriteFailure(Failed(m), t.savedAgain);
      }
    }

    method Arrive(m: Mark, marker: Mark)
      requires end.None? && script.Answer(m).work.Done?
      modifies this, checkpoint, store
      ensures Now() == Deferrable(old(Now()), m, marker, script.Answer(m))
    {
      checkpoint.RemoveCompleted(marker);
      PlainPhase(m);
    }

    method DeferrablePhase(m: Mark, marker: Mark)
      requires end.None?
      modifies this, checkpoint, store
      ensures Now() == Deferrable(old(Now()), m, marker, script.Answer(m))
    {
      match script.Answer(m).work {
        case Absent => Defer(m, marker);
        case Done => Arrive(m, marker);
        case _ => PlainPhase(m);
      }
    }

    method ServicesPhase()
      requires end.None?
      modifies this, checkpoint, store
      ensures Now() == EnableServices(old(Now()), script.Answer(ServicesEnabled))
    {
      var t := script.Answer(ServicesEnabled);
      if t.work.Killed? {
        end := Some(Died);
      } else if !t.work.Done? {
        WriteFailure(Failed(ServicesEnabled), t.saved);
      } else {
        headscaleRestarted := true;
        events := events + [Restarted];
        events := events + [Ran(ServicesEnabled)];
        RecordMark(ServicesEnabled, t.saved);
      }
    }

    method OnboardingPhase()
      requires end.None?
      modifies this, checkpoint, store
      ensures Now() == Onboard(old(Now()), script)
    {
      var t := script.Answer(OnboardingReady);
      if !headscaleRestarted {
        if script.restart.Killed? {
          end := Some(Died);
          return;
        }
        if !script.restart.Done? {
          checkpoint.RemoveCompleted(ServicesEnabled);
          WriteFailure(Failed(OnboardingReady), t.saved);
          return;
        }
        events := events + [Restarted];
      }
      if script.onboardingPlan.Killed? {
        end := Some(Died);
        return;
      }
      if !script.onboardingPlan.Done? {
        WriteFailure(Failed(OnboardingReady), t.saved);
        return;
      }
      if t.work.Killed? {
        end := Some(Died);
        return;
      }
      if !t.work.Done? {
        checkpoint.RemoveCompleted(ServicesEnabled);
        WriteFailure(Failed(OnboardingReady), t.saved);
        return;
      }
      events := events + [KeyCreated];
      events := events + [Ran(OnboardingReady)];
      RecordMark(OnboardingReady, t.saved);
    }

    method MissingRequired(names: seq<Mark>) returns (missing: seq<Mark>)
      ensures missing == Missing(checkpoint.completed, names)
    {
      missing := [];
      for i := 0 to |names|
        invariant missing + Missing(checkpoint.completed, names[i..]) == Missing(checkpoint.completed, names)
      {
        assert names[i..][1..] == names[i + 1..];
        if names[i] !in checkpoint.completed {
          missing := missing + [names[i]];
        }
      }
    }

    method StaticVerifyPhase()
      requires end.None?
      modifies this, checkpoint, store
      ensures Now() == StaticVerify(old(Now()), script.Answer(StaticVerifyPassed))
    {
      var missing := MissingRequired(REQUIRED);
      if |missing| > 0 {
        WriteFailure(MissingPrerequisites(missing), script.Answer(StaticVerifyPassed).saved);
        return;
      }
      PlainPhase(StaticVerifyPassed);
    }

    predicate Has(m: Mark)
      reads checkpoint
    {
      m in checkpoint.completed
    }

    /** The first part of a run: load, fingerprint, begin, preflight. */
    method Prepare()
      requires end.None? && !headscaleRestarted && events == [] && checkpoint.View() == store.saved
      modifies this, checkpoint, store
      ensures Now() == Start(old(store.saved), script)
    {
      if !script.loads {
        end := Some(NotLoaded);
        return;
      }
      if !script.digestComputed {
        WriteFailure(NoDigest, script.digestFailureSaved);
        return;
      }
      var _ := checkpoint.BeginDeploy(script.config);
      if script.preflight.Killed? {
        end := Some(Died);
      } else if !script.preflight.Done? {
        WriteFailure(PreflightFailed, script.preflightSaved);
      }
    }

    /** The guards on phases that wait for others. */
    predicate Ready(m: Mark)
      reads checkpoint
      ensures Ready(m) <==> forall n <- Needs(script.config.challenge, m) :: n in checkpoint.completed
    {
      match m
      case NginxActivated => if script.config.challenge.HTTP01? then Has(TLSBootstrapReady) else Has(CertificateIssued)
      case CertificateIssued => Has(LegoCommandReady)
      case ServicesEnabled => Has(SystemdDaemonReloaded) && Has(CertificateIssued) && Has(NginxActivated)
      case OnboardingReady => Has(ServicesEnabled)
      case _ => true
    }

    method DuePhase(m: Mark)
      requires end.None?
      modifies this, checkpoint, store
      ensures Now() == Perform(old(Now()), m, script)
    {
      match m {
        case RuntimeAssetsInstalled => RuntimeAssetsPhase();
        case LegoCommandReady => DeferrablePhase(LegoCommandReady, LegoCommandDeferred);
        case SystemdDaemonReloaded => DeferrablePhase(SystemdDaemonReloaded, SystemdDaemonReloadDeferred);
        case ServicesEnabled => ServicesPhase();
        case OnboardingReady => OnboardingPhase();
        case StaticVerifyPassed => StaticVerifyPhase();
        case _ => PlainPhase(m);
      }
    }

    /** One phase, unless the run has ended, the phase is recorded, or one it needs is not. */
    method Phase(m: Mark)
      modifies this, checkpoint, store
      ensures Now() == Advance(old(Now()), m, script)
    {
      if end.None? && !Has(m) && Ready(m) {
        DuePhase(m);
      }
    }

    method FinalizePhase()
      requires end.None?
      modifies this, checkpoint, store
      ensures Now() == Finalize(old(Now()), script)
    {
      end := Some(Applied);
      var changed := checkpoint.FinalizeSuccessfulDeploy();
      if changed {
        var saved := store.Save(checkpoint.View(), script.finalizeSaved);
        if !saved {
          end := Some(NotFinalized);
        }
      }
    }

    ghost predicate Reached(begun: Run, i: nat)
      reads this, checkpoint, store
    {
      i <= |Phases(script.config.challenge)| && Now() == After(begun, script, i)
    }

    /** The next phase of the list. */
    method Next(ghost begun: Run, ghost i: nat, m: Mark)
      requires Reached(begun, i) && i < |Phases(script.config.challenge)| && Phases(script.config.challenge)[i] == m
      modifies this, checkpoint, store
      ensures Reached(begun, i + 1)
    {
      Phase(m);
    }

    method CheckPackages(ghost begun: Run)
      requires Reached(begun, 0)
      modifies this, checkpoint, store
      ensures Reached(begun, 3)
    {
      Next(begun, 0, PackageManagerReady);
      Next(begun, 1, PackageArchitectureConfirmed);
      Next(begun, 2, HostDependenciesInstalled);
    }

    method InstallPackages(ghost begun: Run)
      requires Reached(begun, 3)
      modifies this, checkpoint, store
      ensures Reached(begun, 6)
    {
      Next(begun, 3, LegoInstalled);
      Next(begun, 4, HeadscalePackageInstalled);
      Next(begun, 5, RuntimeAssetsInstalled);
    }

    /** With HTTP-01 Nginx serves the challenge, so it is activated before the certificate is asked
        for; with DNS-01 it waits for the certificate. */
    method ServeChallenge(ghost begun: Run)
      requires Reached(begun, 6)
      modifies this, checkpoint, store
      ensures Reached(begun, if script.config.challenge.HTTP01? then 8 else 6)
    {
      if script.config.challenge.HTTP01? {
        Next(begun, 6, TLSBootstrapReady);
        Next(begun, 7, NginxActivated);
      }
    }

    method IssueCertificate(ghost begun: Run)
      requires Reached(begun, if script.config.challenge.HTTP01? then 8 else 6)
      modifies this, checkpoint, store
      ensures Reached(begun, |Phases(script.config.challenge)| - 4)
    {
      ghost var i := if script.config.challenge.HTTP01? then 8 else 6;
      Next(begun, i, LegoCommandReady);
      Next(begun, i + 1, CertificateIssued);
      if !script.config.challenge.HTTP01? {
        Next(begun, i + 2, NginxActivated);
      }
    }

    method StartServices(ghost begun: Run)
      requires Reached(begun, |Phases(script.config.challenge)| - 4)
      modifies this, checkpoint, store
      ensures Reached(begun, |Phases(script.config.challenge)|)
    {
      ghost var i := |Phases(script.config.challenge)| - 4;
      Next(begun, i, SystemdDaemonReloaded);
      Next(begun, i + 1, ServicesEnabled);
      Next(begun, i + 2, OnboardingReady);
      Next(begun, i + 3, StaticVerifyPassed);
    }

    /** A whole run does what the function `Deploy` says. */
    method RunDeploy()
      requires end.None? && !headscaleRestarted && events == [] && checkpoint.View() == store.saved
      modifies this, checkpoint, store
      ensures Now() == Deploy(old(store.saved), script)
    {
      Prepare();
      ghost var begun := Now();
      CheckPackages(begun);
      InstallPackages(begun);
      ServeChallenge(begun);
      IssueCertificate(begun);
      StartServices(begun);
      if end.None? {
        FinalizePhase();
      }
    }
  }
}
