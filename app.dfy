/** The screen state machine of `AppContent` in App.tsx: which screen is shown,
    the settings and questions of the current interview, whether it was restored
    from storage, and how each handler and the login effect move between them.
    A user is identified by a non-empty id; the empty id stands for nobody being
    signed in. */
module App {
  import opened InterviewTypes
  import opened SessionManager

  /** The four pieces of `AppContent` state. */
  datatype View = View(screen: Screen, settings: Option<Settings>, questions: seq<Question>, recovered: bool)

  /** The state after a reset: the home screen, no settings, no questions. */
  const HomeView: View := View(Home, None, [], false)

  /** The render guards: the interview and result screens are only shown with
      settings, so in those screens the settings must be present. */
  predicate Guarded(v: View) {
    (v.screen == Interview || v.screen == Result) ==> v.settings.Some?
  }

  /** `handleStartInterview`. */
  function StartInterview(v: View): View {
    v.(screen := Setup)
  }

  /** `handleBackToHome` asks for confirmation only during an interview that has
      questions. */
  predicate AsksConfirmation(v: View) {
    v.screen == Interview && |v.questions| > 0
  }

  /** Whether `handleBackToHome` goes through with the reset. */
  predicate LeavesForHome(v: View, confirmed: bool) {
    !AsksConfirmation(v) || confirmed
  }

  /** `handleBackToHome`: the new state and the new stores. */
  function BackToHome(v: View, st: Stores, user: string, confirmed: bool): (View, Stores) {
    if LeavesForHome(v, confirmed) then (HomeView, ClearSpec(st, user)) else (v, st)
  }

  /** `handleStartInterviewWithSettings`. */
  function StartWithSettings(v: View, s: Settings): View {
    View(Interview, Some(s), [], false)
  }

  /** `handleInterviewComplete`: the screen changes, the finished questions are
      kept, and the stored session is cleared. */
  function Complete(v: View, st: Stores, user: string, questions: seq<Question>): (View, Stores) {
    (v.(questions := questions, screen := Result), ClearSpec(st, user))
  }

  /** `handleNewInterview`. */
  function NewInterview(st: Stores, user: string): (View, Stores) {
    (HomeView, ClearSpec(st, user))
  }

  /** The login effect: a different previous user's session is cleared, then the
      user's own session is loaded; a found session reopens the interview. */
  function Restore(st: Stores, user: string, previous: string, now: int): (View, Stores) {
    var cleared := if previous != "" && previous != user then ClearSpec(st, previous) else st;
    var l := LoadSpec(cleared, user, now);
    match l.result
    case Some(s) => (View(Interview, Some(s.settings), s.questions, true), l.stores)
    case None => (HomeView, l.stores)
  }

  /** The record the auto-save effect builds from the app's own state. */
  function Snapshot(settings: Settings, questions: seq<Question>, user: string, now: int): Session {
    var start := if |questions| > 0 && questions[0].timestamp != 0 then questions[0].timestamp else now;
    Session(settings, questions, |questions| - 1, false, start, Some(now), CurrentVersion, user, None, None, None)
  }

  /** The auto-save effect: during an interview with settings and a user, the
      snapshot is saved. */
  function AutoSave(v: View, st: Stores, user: string, now: int): Stores {
    if v.screen == Interview && v.settings.Some? && user != "" then
      SaveSpec(st, Snapshot(v.settings.value, v.questions, user, now), user, now)
    else st
  }

  // ===========================================================================
  // Properties

  /** Every handler and the login and logout effects keep the render guard. The
      completion handler is only reachable from the interview screen. */
  lemma TransitionsKeepGuard(v: View, st: Stores, user: string, previous: string, now: int,
                             s: Settings, qs: seq<Question>, confirmed: bool)
    requires Guarded(v)
    ensures Guarded(StartInterview(v))
    ensures Guarded(BackToHome(v, st, user, confirmed).0)
    ensures Guarded(StartWithSettings(v, s))
    ensures v.screen == Interview ==> Guarded(Complete(v, st, user, qs).0)
    ensures Guarded(NewInterview(st, user).0)
    ensures Guarded(Restore(st, user, previous, now).0)
    ensures Guarded(HomeView)
  {
  }

  /** Going back home: a declined confirmation changes nothing at all; otherwise
      the state is reset and the user's stored session removed, exactly as a new
      interview does. Leaving from any screen but a running interview with
      questions needs no confirmation. */
  lemma BackToHomeOutcomes(v: View, st: Stores, user: string, confirmed: bool)
    ensures AsksConfirmation(v) && !confirmed ==> BackToHome(v, st, user, confirmed) == (v, st)
    ensures LeavesForHome(v, confirmed) ==> BackToHome(v, st, user, confirmed) == NewInterview(st, user)
    ensures v.screen != Interview ==> BackToHome(v, st, user, confirmed) == NewInterview(st, user)
    ensures user != "" && LeavesForHome(v, confirmed) ==>
      SessionKey(user) !in BackToHome(v, st, user, confirmed).1.session
      && BackupKey(user) !in BackToHome(v, st, user, confirmed).1.local
  {
  }

  /** Starting an interview keeps the chosen settings and begins with no questions;
      completing it keeps those settings and shows the finished questions. */
  lemma StartAndComplete(v: View, st: Stores, user: string, s: Settings, qs: seq<Question>)
    ensures var started := StartWithSettings(v, s);
      && started.screen == Interview && started.settings == Some(s) && started.questions == []
      && !started.recovered
    ensures var done := Complete(StartWithSettings(v, s), st, user, qs).0;
      done.screen == Result && done.settings == Some(s) && done.questions == qs
    ensures StartInterview(v).settings == v.settings && StartInterview(v).questions == v.questions
  {
  }

  /** The interview screen keeps its own question list and hands it back only on
      completion, so during a freshly started interview the app's list stays empty:
      the auto-save stores a session without questions and going back home asks
      no confirmation. */
  lemma FreshInterviewHoldsNoQuestions(v: View, st: Stores, user: string, s: Settings, now: int, confirmed: bool)
    requires user != ""
    ensures var started := StartWithSettings(v, s);
      && AutoSave(started, st, user, now).session[SessionKey(user)].session.questions == []
      && !AsksConfirmation(started)
      && BackToHome(started, st, user, confirmed).0 == HomeView
  {
  }

  /** A round trip through storage: an interview saved by the auto-save effect is
      reopened by the next login of the same user within the timeout, with its
      settings and questions, marked as restored. */
  lemma AutoSaveThenRestore(v: View, st: Stores, user: string, previous: string, now: int, later: int)
    requires v.screen == Interview && v.settings.Some? && user != ""
    requires previous == "" || previous == user
    requires now != 0 && later - now <= Timeout
    ensures Restore(AutoSave(v, st, user, now), user, previous, later).0
      == View(Interview, v.settings, v.questions, true)
  {
    var snap := Snapshot(v.settings.value, v.questions, user, now);
    assert Stamp(snap, user, now) == snap;
    SaveThenLoad(st, snap, user, now, later);
  }

  /** After an interview is completed, or abandoned for a new one, the next login
      of the same user starts from home. */
  lemma FinishedInterviewNotRestored(v: View, st: Stores, user: string, previous: string,
                                     qs: seq<Question>, now: int)
    requires user != ""
    requires previous == "" || previous == user
    ensures Restore(Complete(v, st, user, qs).1, user, previous, now).0 == HomeView
    ensures Restore(NewInterview(st, user).1, user, previous, now).0 == HomeView
  {
    ClearThenLoad(st, user, now);
  }

  // ===========================================================================
  // The component

  class AppContent {
    var screen: Screen
    var settings: Option<Settings>
    var questions: seq<Question>
    var recovered: bool
    /** The browser storage the session manager works on. */
    const storage: BrowserStorage

    function Contents(): View
      reads this
    {
      View(screen, settings, questions, recovered)
    }

    predicate Valid()
      reads this
    {
      Guarded(Contents())
    }

    constructor (storage: BrowserStorage)
      ensures Contents() == HomeView && Valid()
      ensures this.storage == storage
    {
      screen := Home;
      settings := None;
      questions := [];
      recovered := false;
      this.storage := storage;
    }

    /** Puts the state back to home. */
    method Reset()
      modifies this
      ensures Contents() == HomeView && Valid()
    {
      screen := Home;
      settings := None;
      questions := [];
      recovered := false;
    }

    method HandleStartInterview()
      modifies this
      ensures Contents() == StartInterview(old(Contents())) && Valid()
    {
      screen := Setup;
    }

    method HandleBackToHome(user: string, confirmed: bool)
      requires Valid()
      modifies this, storage
      ensures Valid()
      ensures (Contents(), storage.Contents()) == BackToHome(old(Contents()), old(storage.Contents()), user, confirmed)
    {
      if screen == Interview && |questions| > 0 {
        if !confirmed {
          return;
        }
      }
      if user != "" {
        storage.Clear(user);
      }
      Reset();
    }

    method HandleStartInterviewWithSettings(s: Settings)
      modifies this
      ensures Contents() == StartWithSettings(old(Contents()), s) && Valid()
    {
      settings := Some(s);
      questions := [];
      screen := Interview;
      recovered := false;
    }

    /** Called by the interview screen, which is shown only with settings. */
    method HandleInterviewComplete(user: string, finished: seq<Question>)
      requires Valid() && screen == Interview
      modifies this, storage
      ensures Valid()
      ensures (Contents(), storage.Contents()) == Complete(old(Contents()), old(storage.Contents()), user, finished)
    {
      questions := finished;
      if user != "" {
        storage.Clear(user);
      }
      screen := Result;
    }

    method HandleNewInterview(user: string)
      modifies this, storage
      ensures (Contents(), storage.Contents()) == NewInterview(old(storage.Contents()), user)
      ensures Valid()
    {
      if user != "" {
        storage.Clear(user);
      }
      Reset();
    }

    /** The effect that runs once authentication has settled with `user` signed in;
        `previous` is the id last recorded as the current user. */
    method OnLogin(user: string, previous: string, now: int)
      requires user != ""
      modifies this, storage
      ensures (Contents(), storage.Contents()) == Restore(old(storage.Contents()), user, previous, now)
      ensures Valid()
    {
      if previous != "" && previous != user {
        storage.Clear(previous);
      }
      var saved := storage.Load(user, now);
      match saved {
        case Some(s) =>
          screen := Interview;
          settings := Some(s.settings);
          questions := s.questions;
          recovered := true;
        case None =>
          Reset();
      }
    }

    /** The effect that runs once authentication has settled with nobody signed in. */
    method OnLogout()
      modifies this
      ensures Contents() == HomeView && Valid()
    {
      Reset();
    }

    /** The auto-save effect, run whenever the screen, settings or questions change. */
    method SaveProgress(user: string, now: int)
      modifies storage
      ensures storage.Contents() == AutoSave(Contents(), old(storage.Contents()), user, now)
    {
      if screen == Interview && settings.Some? && user != "" {
        storage.Save(Snapshot(settings.value, questions, user, now), user, now);
      }
    }
  }
}
