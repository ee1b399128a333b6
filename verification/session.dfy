/** The session state container of the top-level component: its initial value,
    the four transitions it applies through `setState(prev => ({ ...prev, … }))`,
    the restore-on-start from the saved profile, the reset, and the header title.
    Every transition is a pure function of the previous state. */
module Session {
  import opened Wrappers
  import opened Types
  import Seqs
  import Text
  import Constants

  /** The one interview the state is seeded with. */
  const SeedInterview: Interview := Interview(
    "1", "Stripe", "Frontend Engineer", "Oct 15, 2024", "10:00 AM", Technical,
    Some(["Focus on React performance", "Explain state management patterns", "Review CSS architecture"]))

  /** The invariant every reachable state keeps: onboarded exactly when a profile is held. */
  predicate Consistent(s: AppState) {
    s.onboarded <==> s.profile.Some?
  }

  /** The state before anything has happened. */
  function Initial(): (s: AppState)
    ensures !s.onboarded && s.profile == None && !s.isAutoApplying
    ensures s.applications == [] && s.interviews == [SeedInterview]
    ensures Consistent(s)
  {
    AppState(false, None, [], [SeedInterview], false)
  }

  /** What reading and parsing the saved-profile key yields on start-up. A missing key
      and an empty stored string are both `NothingSaved` (the source tests the raw
      value for truthiness before parsing). */
  datatype SavedProfile = NothingSaved | Unparseable | Saved(profile: UserProfile)

  /** Restore on start: a parseable saved profile marks the user onboarded with that
      profile; anything else (nothing stored, or a parse failure that is only logged)
      leaves the state as it was. */
  function Restore(s: AppState, saved: SavedProfile): (r: AppState)
    ensures saved.Saved? ==> r.onboarded && r.profile == Some(saved.profile)
    ensures !saved.Saved? ==> r == s
    ensures r.applications == s.applications && r.interviews == s.interviews
    ensures r.isAutoApplying == s.isAutoApplying
    ensures saved.Saved? || Consistent(s) ==> Consistent(r)
  {
    match saved
    case Saved(p) => s.(profile := Some(p), onboarded := true)
    case _ => s
  }

  /** Onboarding completion: the profile is kept and the user marked onboarded; no
      field of the profile is checked. */
  function CompleteOnboarding(s: AppState, p: UserProfile): (r: AppState)
    ensures r.onboarded && r.profile == Some(p)
    ensures r.applications == s.applications && r.interviews == s.interviews
    ensures r.isAutoApplying == s.isAutoApplying
    ensures Consistent(r)
  {
    s.(onboarded := true, profile := Some(p))
  }

  /** What the saved-profile key holds after onboarding completes (the profile is
      written under the key, and parsing the written text gives the profile back). */
  function SavedAfterCompletion(p: UserProfile): SavedProfile {
    Saved(p)
  }

  /** What the saved-profile key holds after the reset button removed it. */
  function SavedAfterReset(): SavedProfile {
    NothingSaved
  }

  /** The auto-apply flag becomes exactly the requested value; nothing else moves. */
  function SetAutoApply(s: AppState, active: bool): (r: AppState)
    ensures r.isAutoApplying == active
    ensures r.onboarded == s.onboarded && r.profile == s.profile
    ensures r.applications == s.applications && r.interviews == s.interviews
    ensures Consistent(s) ==> Consistent(r)
  {
    s.(isAutoApplying := active)
  }

  /** A new application goes to the head of the list; nothing else moves. */
  function AddApplication(s: AppState, app: JobApplication): (r: AppState)
    ensures |r.applications| == |s.applications| + 1
    ensures r.applications[0] == app && r.applications[1..] == s.applications
    ensures r.onboarded == s.onboarded && r.profile == s.profile
    ensures r.interviews == s.interviews && r.isAutoApplying == s.isAutoApplying
    ensures Consistent(s) ==> Consistent(r)
  {
    s.(applications := [app] + s.applications)
  }

  /** Adding several applications one after another, first to last. */
  function AddAll(s: AppState, apps: seq<JobApplication>): AppState
    decreases |apps|
  {
    if |apps| == 0 then s else AddAll(AddApplication(s, apps[0]), apps[1..])
  }

  /** The list after a run of additions is the additions newest first, followed by the
      old list: its length grows by the number of additions and its head is the last one added. */
  lemma {:induction false} AddAllIsLifo(s: AppState, apps: seq<JobApplication>)
    ensures AddAll(s, apps).applications == Seqs.Reverse(apps) + s.applications
    ensures |AddAll(s, apps).applications| == |s.applications| + |apps|
    ensures |apps| > 0 ==> AddAll(s, apps).applications[0] == apps[|apps| - 1]
    ensures AddAll(s, apps).profile == s.profile && AddAll(s, apps).onboarded == s.onboarded
    ensures AddAll(s, apps).interviews == s.interviews
    ensures AddAll(s, apps).isAutoApplying == s.isAutoApplying
    decreases |apps|
  {
    if |apps| > 0 {
      var s' := AddApplication(s, apps[0]);
      AddAllIsLifo(s', apps[1..]);
      assert Seqs.Reverse(apps) == Seqs.Reverse(apps[1..]) + [apps[0]];
    }
  }

  /** Setting the flag is idempotent, and a later setting overrides an earlier one. */
  lemma SetAutoApplyIdempotent(s: AppState, a: bool, b: bool)
    ensures SetAutoApply(SetAutoApply(s, a), a) == SetAutoApply(s, a)
    ensures SetAutoApply(SetAutoApply(s, a), b) == SetAutoApply(s, b)
  {
  }

  /** The session is restored in a fresh process exactly as onboarding left it. */
  lemma PersistenceRoundTrip(p: UserProfile)
    ensures Restore(Initial(), SavedAfterCompletion(p)) == CompleteOnboarding(Initial(), p)
  {
  }

  /** The reset button removes the saved profile and reloads; the reloaded session is
      the initial one, whatever came before. */
  function Reset(s: AppState): (r: AppState)
    ensures !r.onboarded && r.profile == None && r.applications == []
    ensures !r.isAutoApplying && Consistent(r)
  {
    Restore(Initial(), SavedAfterReset())
  }

  /** The transitions the session can take. */
  datatype Event =
    | Restored(saved: SavedProfile)
    | Onboarded(profile: UserProfile)
    | AutoApplySet(active: bool)
    | ApplicationAdded(app: JobApplication)
    | ResetPressed

  function Apply(s: AppState, e: Event): AppState {
    match e
    case Restored(saved) => Restore(s, saved)
    case Onboarded(p) => CompleteOnboarding(s, p)
    case AutoApplySet(a) => SetAutoApply(s, a)
    case ApplicationAdded(app) => AddApplication(s, app)
    case ResetPressed => Reset(s)
  }

  function ApplyAll(s: AppState, es: seq<Event>): AppState
    decreases |es|
  {
    if |es| == 0 then s else ApplyAll(Apply(s, es[0]), es[1..])
  }

  /** Every state reachable from the initial one keeps `onboarded <==> profile != null`,
      and the interview list is never touched. */
  lemma {:induction false} ReachableStatesConsistent(s: AppState, es: seq<Event>)
    requires Consistent(s)
    ensures Consistent(ApplyAll(s, es))
    ensures ApplyAll(s, es).interviews == s.interviews || ApplyAll(s, es).interviews == [SeedInterview]
    decreases |es|
  {
    if |es| > 0 {
      ReachableStatesConsistent(Apply(s, es[0]), es[1..]);
      var t := Apply(s, es[0]);
      assert t.interviews == s.interviews || t.interviews == [SeedInterview];
      if t.interviews != s.interviews {
        assert es[0].ResetPressed?;
        ReachableInterviewsFromSeed(t, es[1..]);
      }
    }
  }

  lemma {:induction false} ReachableInterviewsFromSeed(s: AppState, es: seq<Event>)
    requires s.interviews == [SeedInterview]
    ensures ApplyAll(s, es).interviews == [SeedInterview]
    decreases |es|
  {
    if |es| > 0 {
      ReachableInterviewsFromSeed(Apply(s, es[0]), es[1..]);
    }
  }

  /** The header title: the product name on the dashboard, otherwise the tab id with its
      first character upper-cased and the rest unchanged. */
  function TabTitle(tab: string): (t: string)
    ensures tab == "dashboard" ==> t == "HireBot AI"
    ensures tab != "dashboard" ==> |t| == |tab|
    ensures tab != "dashboard" && |tab| > 0 ==> t[0] == Text.UpperChar(tab[0]) && t[1..] == tab[1..]
  {
    if tab == "dashboard" then "HireBot AI" else Text.Capitalize(tab)
  }

  /** The header titles of the navigation tabs, in bar order. */
  function NavTitles(): seq<string> {
    seq(|Constants.Navigation|, i requires 0 <= i < |Constants.Navigation| => TabTitle(Constants.Navigation[i].id))
  }

  /** A tab id of lower-case ASCII letters, as every navigation id is. */
  predicate LowerWord(id: string) {
    |id| > 0 && forall k :: 0 <= k < |id| ==> 'a' <= id[k] <= 'z'
  }

  /** No lower-case id other than the dashboard's is titled 'HireBot AI': its fifth
      character would have to be the upper-case 'B'. */
  lemma OnlyDashboardIsHireBot(id: string)
    requires LowerWord(id) && id != "dashboard"
    ensures TabTitle(id) != "HireBot AI"
  {
    if |id| == 10 {
      assert TabTitle(id)[1..][3] == id[1..][3];
    }
  }

  /** Different tabs get different titles: among ids made of lower-case letters, the title
      determines the tab. */
  lemma {:induction false} TitleDeterminesTab(a: string, b: string)
    requires LowerWord(a) && LowerWord(b)
    requires TabTitle(a) == TabTitle(b)
    ensures a == b
  {
    var t := TabTitle(a);
    if a != "dashboard" && b != "dashboard" {
      assert Text.UpperChar(a[0]) == t[0] == Text.UpperChar(b[0]);
      assert a == [a[0]] + a[1..] && b == [b[0]] + b[1..];
      assert a[1..] == t[1..] == b[1..];
    } else if a != "dashboard" {
      OnlyDashboardIsHireBot(a);
    } else if b != "dashboard" {
      OnlyDashboardIsHireBot(b);
    }
  }

  lemma AutomationTitle()
    ensures TabTitle("automation") == "Automation"
  {
  }

  lemma ResumeTitle()
    ensures TabTitle("resume") == "Resume"
  {
  }

  lemma InterviewsTitle()
    ensures TabTitle("interviews") == "Interviews"
  {
  }

  lemma ProfileTitle()
    ensures TabTitle("profile") == "Profile"
  {
  }

  /** The tabs are titled HireBot AI, Automation, Resume, Interviews and Profile. */
  lemma NavigationTitles()
    ensures NavTitles() == ["HireBot AI", "Automation", "Resume", "Interviews", "Profile"]
  {
    AutomationTitle();
    ResumeTitle();
    InterviewsTitle();
    ProfileTitle();
    var t := NavTitles();
    assert t[0] == "HireBot AI";
    assert t[1] == "Automation";
    assert t[2] == "Resume";
    assert t[3] == "Interviews";
    assert t[4] == "Profile";
  }

  /** No two tabs share a title. */
  lemma NavigationTitlesDistinct()
    ensures Seqs.Distinct(NavTitles())
  {
    NavigationTitles();
    Seqs.DistinctByPosition(NavTitles(),
      s => if |s| == 0 then -1 else if s[0] == 'H' then 0 else if s[0] == 'A' then 1
           else if s[0] == 'R' then 2 else if s[0] == 'I' then 3 else if s[0] == 'P' then 4 else -1);
  }
}
