/**
 * The host application's three onboarding flags: whether the wizard's modal is
 * open, whether the wizard was completed, and whether it was skipped.  The
 * wizard reports back through the complete and skip callbacks, and the home
 * page reopens it.
 */
module App {

  datatype Flags = Flags(isOnboardingOpen: bool, isOnboardingCompleted: bool, hasSkippedOnboarding: bool)

  /** The flags when the application starts: the wizard is shown right away. */
  const INITIAL_FLAGS: Flags := Flags(true, false, false)

  /** The flags after the wizard reports completion. */
  function AfterComplete(f: Flags): (r: Flags)
    ensures r.isOnboardingCompleted && !r.isOnboardingOpen
    ensures r.hasSkippedOnboarding == f.hasSkippedOnboarding
  {
    f.(isOnboardingCompleted := true, isOnboardingOpen := false)
  }

  /** The flags after the wizard is skipped or its modal is closed. */
  function AfterSkip(f: Flags): (r: Flags)
    ensures r.hasSkippedOnboarding && !r.isOnboardingOpen
    ensures r.isOnboardingCompleted == f.isOnboardingCompleted
  {
    f.(hasSkippedOnboarding := true, isOnboardingOpen := false)
  }

  /** The flags after the home page asks to start the wizard again. */
  function AfterStart(f: Flags): (r: Flags)
    ensures r.isOnboardingOpen
    ensures r.isOnboardingCompleted == f.isOnboardingCompleted
    ensures r.hasSkippedOnboarding == f.hasSkippedOnboarding
  {
    f.(isOnboardingOpen := true)
  }

  /** Reporting completion, or a skip, a second time changes nothing. */
  lemma CallbacksIdempotent(f: Flags)
    ensures AfterComplete(AfterComplete(f)) == AfterComplete(f)
    ensures AfterSkip(AfterSkip(f)) == AfterSkip(f)
  {
  }

  /** Once completed or skipped, the flag stays set whatever happens next. */
  lemma OutcomesStick(f: Flags)
    ensures f.isOnboardingCompleted ==>
      AfterSkip(f).isOnboardingCompleted && AfterStart(f).isOnboardingCompleted && AfterComplete(f).isOnboardingCompleted
    ensures f.hasSkippedOnboarding ==>
      AfterSkip(f).hasSkippedOnboarding && AfterStart(f).hasSkippedOnboarding && AfterComplete(f).hasSkippedOnboarding
  {
  }

  /** The flags of the running application. */
  class AppHost {
    var isOnboardingOpen: bool
    var isOnboardingCompleted: bool
    var hasSkippedOnboarding: bool

    function Current(): Flags
      reads this
    {
      Flags(isOnboardingOpen, isOnboardingCompleted, hasSkippedOnboarding)
    }

    constructor ()
      ensures Current() == INITIAL_FLAGS
    {
      isOnboardingOpen := true;
      isOnboardingCompleted := false;
      hasSkippedOnboarding := false;
    }

    method HandleOnboardingComplete()
      modifies this
      ensures Current() == AfterComplete(old(Current()))
    {
      isOnboardingCompleted := true;
      isOnboardingOpen := false;
    }

    /** Also the modal's close handler. */
    method HandleOnboardingSkip()
      modifies this
      ensures Current() == AfterSkip(old(Current()))
    {
      hasSkippedOnboarding := true;
      isOnboardingOpen := false;
    }

    method StartOnboarding()
      modifies this
      ensures Current() == AfterStart(old(Current()))
    {
      isOnboardingOpen := true;
    }
  }
}
