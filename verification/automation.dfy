/** The auto-apply simulator. One timer tick builds one application from three
    uniform picks and a uniform score offset; each `Math.random()` draw is an explicit
    index below the size of the list it picks from. A tick fires only while the
    view is mounted (onboarded, 'automation' tab) and the flag is on, and its record goes
    to the head of the session's list. */
module AutomationHub {
  import opened Wrappers
  import opened Types
  import Seqs
  import Session

  const Platforms: seq<Platform> := [LinkedIn, Indeed, Naukri, Foundit, CareerPage]
  const Companies: seq<string> := ["Google", "Meta", "Amazon", "Stripe", "Vercel", "Uber", "Airbnb", "Netflix"]
  const Roles: seq<string> := ["Software Engineer", "Data Scientist", "Frontend Developer", "Backend Dev", "Fullstack"]

  /** Width of the score range: `Math.floor(Math.random() * 30) + 70`. */
  const ScoreSpan: nat := 30
  const ScoreBase: nat := 70

  /** The random choices of one tick: the opaque id, and `Math.floor(Math.random() * n)`
      for each list and for the score. */
  datatype Draw = Draw(id: string, company: nat, role: nat, platform: nat, offset: nat) {
    predicate WellFormed() {
      company < |Companies| && role < |Roles| && platform < |Platforms| && offset < ScoreSpan
    }
  }

  /** The role `profile?.role || pick`: the profile's role when there is a profile and its
      role is not the empty string, the pool pick otherwise. */
  function ChosenRole(profile: Option<UserProfile>, pick: nat): (r: string)
    requires pick < |Roles|
    ensures profile.Some? && profile.value.role != "" ==> r == profile.value.role
    ensures !(profile.Some? && profile.value.role != "") ==> r == Roles[pick]
  {
    if profile.Some? && profile.value.role != "" then profile.value.role else Roles[pick]
  }

  /** One tick's record. */
  function Tick(profile: Option<UserProfile>, d: Draw): (app: JobApplication)
    requires d.WellFormed()
    ensures app.status == Applied && app.appliedDate == "Just now"
    ensures ScoreBase <= app.matchScore < ScoreBase + ScoreSpan
    ensures app.id == d.id
    ensures app.companyName in Companies && app.platform in Platforms
    ensures profile.Some? && profile.value.role != "" ==> app.role == profile.value.role
    ensures !(profile.Some? && profile.value.role != "") ==> app.role in Roles
  {
    JobApplication(d.id, Companies[d.company], ChosenRole(profile, d.role), Platforms[d.platform],
                   Applied, "Just now", d.offset + ScoreBase)
  }

  /** Every listed company is produced by some draw. */
  lemma TickReachesCompany(profile: Option<UserProfile>, c: string)
    requires c in Companies
    ensures exists d: Draw :: d.WellFormed() && Tick(profile, d).companyName == c
  {
    var i :| 0 <= i < |Companies| && Companies[i] == c;
    assert Tick(profile, Draw("", i, 0, 0, 0)).companyName == c;
  }

  /** Every platform of the union is produced by some draw. */
  lemma TickReachesPlatform(profile: Option<UserProfile>, p: Platform)
    ensures exists d: Draw :: d.WellFormed() && Tick(profile, d).platform == p
  {
    ApplicationUnionsHaveFiveValues();
    assert p in Platforms;
    var i :| 0 <= i < |Platforms| && Platforms[i] == p;
    assert Tick(profile, Draw("", 0, 0, i, 0)).platform == p;
  }

  /** Every score from 70 to 99 is produced by some draw. */
  lemma TickReachesScore(profile: Option<UserProfile>, v: int)
    requires 70 <= v <= 99
    ensures exists d: Draw :: d.WellFormed() && Tick(profile, d).matchScore == v
  {
    assert Tick(profile, Draw("", 0, 0, 0, v - 70)).matchScore == v;
  }

  /** Different score offsets give different scores, so a uniform offset is a uniform score. */
  lemma TickScoreInjective(profile: Option<UserProfile>, d1: Draw, d2: Draw)
    requires d1.WellFormed() && d2.WellFormed()
    ensures Tick(profile, d1).matchScore == Tick(profile, d2).matchScore <==> d1.offset == d2.offset
  {
  }

  /** Without a usable profile role, every pool role is produced by some draw. */
  lemma TickReachesPoolRole(profile: Option<UserProfile>, r: string)
    requires !(profile.Some? && profile.value.role != "")
    requires r in Roles
    ensures exists d: Draw :: d.WellFormed() && Tick(profile, d).role == r
  {
    var i :| 0 <= i < |Roles| && Roles[i] == r;
    assert Tick(profile, Draw("", 0, i, 0, 0)).role == r;
  }

  /** The control button asks for the opposite of the current flag. */
  function ToggleRequest(s: AppState): (active: bool)
    ensures active != s.isAutoApplying
  {
    !s.isAutoApplying
  }

  /** Pressing the control button twice returns the session to where it was. */
  lemma ToggleTwiceRestores(s: AppState)
    ensures var s1 := Session.SetAutoApply(s, ToggleRequest(s));
            Session.SetAutoApply(s1, ToggleRequest(s1)) == s
  {
  }

  /** The simulator in its surroundings: the session and the active tab. The view, and with
      it the interval, exists only while it is mounted: the user is past onboarding (the top
      level renders the wizard instead) and the 'automation' tab is active. Leaving the tab
      unmounts the view and clears the interval; the flag stays as it was. */
  datatype Hub = Hub(session: AppState, tab: string)

  predicate Mounted(onboarded: bool, tab: string) {
    onboarded && tab == "automation"
  }

  /** What can happen: a tab change, the control button, or one scheduled interval firing. */
  datatype Event = Navigated(tab: string) | Switched(active: bool) | Elapsed(d: Draw)

  predicate WellFormedEvents(es: seq<Event>) {
    forall i :: 0 <= i < |es| ==> es[i].Elapsed? ==> es[i].d.WellFormed()
  }

  /** One event. A tab change moves the view. The control button is on screen only while the
      view is mounted, and sets the flag. An interval is scheduled only while the view is
      mounted and the flag is on; when it fires it adds one record, otherwise nothing fires. */
  function Step(h: Hub, e: Event): Hub
    requires e.Elapsed? ==> e.d.WellFormed()
  {
    var on := Mounted(h.session.onboarded, h.tab);
    match e
    case Navigated(t) => h.(tab := t)
    case Switched(a) => if on then h.(session := Session.SetAutoApply(h.session, a)) else h
    case Elapsed(d) =>
      if on && h.session.isAutoApplying
      then h.(session := Session.AddApplication(h.session, Tick(h.session.profile, d)))
      else h
  }

  function Simulate(h: Hub, es: seq<Event>): Hub
    requires WellFormedEvents(es)
    decreases |es|
  {
    if |es| == 0 then h else Simulate(Step(h, es[0]), es[1..])
  }

  /** An independent count of the intervals that fire, following the tab through the
      navigation and the flag through the switches made while the view is mounted. */
  function TicksFired(onboarded: bool, tab: string, flag: bool, es: seq<Event>): nat
    decreases |es|
  {
    if |es| == 0 then 0
    else match es[0]
      case Navigated(t) => TicksFired(onboarded, t, flag, es[1..])
      case Switched(a) => TicksFired(onboarded, tab, if Mounted(onboarded, tab) then a else flag, es[1..])
      case Elapsed(_) =>
        (if Mounted(onboarded, tab) && flag then 1 else 0) + TicksFired(onboarded, tab, flag, es[1..])
  }

  /** One event: a tab change touches only the tab; a switch while mounted changes only the
      flag; an interval fired while mounted and on puts one tick record in front of the list;
      nothing else changes anything. */
  lemma StepEffect(h: Hub, e: Event)
    requires e.Elapsed? ==> e.d.WellFormed()
    ensures var h' := Step(h, e);
            var s, s' := h.session, h'.session;
            var on := Mounted(s.onboarded, h.tab);
            && s'.profile == s.profile && s'.onboarded == s.onboarded && s'.interviews == s.interviews
            && h'.tab == (if e.Navigated? then e.tab else h.tab)
            && s'.isAutoApplying == (if e.Switched? && on then e.active else s.isAutoApplying)
            && (if e.Elapsed? && on && s.isAutoApplying
                then s'.applications == [Tick(s.profile, e.d)] + s.applications
                else s'.applications == s.applications)
  {
  }

  /** Each interval that fires adds exactly one record and nothing else does; the records
      already present stay, in order, at the end of the list; the profile, the onboarding
      flag and the interviews are untouched. */
  lemma {:induction false} SimulateAddsOnePerActiveTick(h: Hub, es: seq<Event>)
    requires WellFormedEvents(es)
    ensures var s, r := h.session, Simulate(h, es).session;
            |r.applications| == |s.applications| + TicksFired(s.onboarded, h.tab, s.isAutoApplying, es)
            && Seqs.EndsWith(r.applications, s.applications)
            && r.profile == s.profile && r.onboarded == s.onboarded && r.interviews == s.interviews
    decreases |es|
  {
    var s := h.session;
    if |es| == 0 {
      assert s.applications[|s.applications| - |s.applications|..] == s.applications;
    } else {
      var h' := Step(h, es[0]);
      StepEffect(h, es[0]);
      SimulateAddsOnePerActiveTick(h', es[1..]);
      assert Simulate(h, es) == Simulate(h', es[1..]);
      var s' := h'.session;
      assert Seqs.EndsWith(s'.applications, s.applications) by {
        if es[0].Elapsed? && Mounted(s.onboarded, h.tab) && s.isAutoApplying {
          assert s'.applications[1..] == s.applications;
        } else {
          assert s'.applications[|s'.applications| - |s.applications|..] == s.applications;
        }
      }
      Seqs.EndsWithTrans(Simulate(h, es).session.applications, s'.applications, s.applications);
    }
  }

  /** With the view not mounted (another tab, say) or the flag off, time passing adds nothing,
      whatever the flag says: watching the dashboard with the bot switched on adds no record. */
  lemma {:induction false} IdleAddsNothing(h: Hub, ds: seq<Draw>)
    requires !Mounted(h.session.onboarded, h.tab) || !h.session.isAutoApplying
    requires forall i :: 0 <= i < |ds| ==> ds[i].WellFormed()
    ensures var es := seq(|ds|, i requires 0 <= i < |ds| => Elapsed(ds[i]));
            WellFormedEvents(es) && Simulate(h, es) == h
    decreases |ds|
  {
    var es := seq(|ds|, i requires 0 <= i < |ds| => Elapsed(ds[i]));
    if |ds| > 0 {
      IdleAddsNothing(h, ds[1..]);
      assert es[1..] == seq(|ds[1..]|, i requires 0 <= i < |ds[1..]| => Elapsed(ds[1..][i]));
    }
  }

  /** Leaving the automation view for the dashboard stops the bot without switching it off:
      no interval fires afterwards, the flag stays as it was and no record is added. */
  lemma LeavingTheViewStopsTheBot(h: Hub, ds: seq<Draw>)
    requires forall i :: 0 <= i < |ds| ==> ds[i].WellFormed()
    ensures var es := [Navigated("dashboard")] + seq(|ds|, i requires 0 <= i < |ds| => Elapsed(ds[i]));
            WellFormedEvents(es) && Simulate(h, es) == h.(tab := "dashboard")
  {
    var idle := seq(|ds|, i requires 0 <= i < |ds| => Elapsed(ds[i]));
    var es := [Navigated("dashboard")] + idle;
    IdleAddsNothing(h.(tab := "dashboard"), ds);
    assert es[1..] == idle;
  }

  /** Every record the simulator adds is 'Applied', 'Just now', scored 70..99, and carries
      the profile's role when that role is non-empty. */
  lemma {:induction false} SimulatedRecordsAreWellFormed(h: Hub, es: seq<Event>)
    requires WellFormedEvents(es)
    ensures var s, r := h.session, Simulate(h, es).session;
            |r.applications| >= |s.applications|
            && forall i :: 0 <= i < |r.applications| - |s.applications| ==>
                 var a := r.applications[i];
                 a.status == Applied && a.appliedDate == "Just now"
                 && 70 <= a.matchScore <= 99
                 && (s.profile.Some? && s.profile.value.role != "" ==> a.role == s.profile.value.role)
    decreases |es|
  {
    SimulateAddsOnePerActiveTick(h, es);
    if |es| > 0 {
      var h' := Step(h, es[0]);
      StepEffect(h, es[0]);
      SimulatedRecordsAreWellFormed(h', es[1..]);
      SimulateAddsOnePerActiveTick(h', es[1..]);
      var r := Simulate(h', es[1..]).session;
      assert Simulate(h, es).session == r;
      var k := |r.applications| - |h'.session.applications|;
      if es[0].Elapsed? && Mounted(h.session.onboarded, h.tab) && h.session.isAutoApplying {
        assert r.applications[k] == r.applications[k..][0] == h'.session.applications[0];
      }
    }
  }

}
