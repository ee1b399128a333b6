/** The dashboard's read-only projections of the session: the stat tiles, the
    "Activity" list of the latest five applications, and the empty placeholder. */
module Dashboard {
  import opened Wrappers
  import opened Types
  import Session

  datatype Stats = Stats(total: nat, shortlisted: nat, inReview: nat, rejected: nat, interviews: nat)

  /** The applications the view reads; a missing state reads as an empty list. */
  function ApplicationsOf(state: Option<AppState>): seq<JobApplication> {
    if state.Some? then state.value.applications else []
  }

  function InterviewsOf(state: Option<AppState>): seq<Interview> {
    if state.Some? then state.value.interviews else []
  }

  /** The number of applications with status `st` (`filter(...).length`). */
  function Count(apps: seq<JobApplication>, st: Status): (n: nat)
    ensures n <= |apps|
    ensures n == 0 <==> forall i :: 0 <= i < |apps| ==> apps[i].status != st
    ensures n == |apps| <==> forall i :: 0 <= i < |apps| ==> apps[i].status == st
    decreases |apps|
  {
    if |apps| == 0 then 0
    else (if apps[0].status == st then 1 else 0) + Count(apps[1..], st)
  }

  /** The statuses of the list, position by position. */
  function StatusesOf(apps: seq<JobApplication>): seq<Status> {
    seq(|apps|, i requires 0 <= i < |apps| => apps[i].status)
  }

  /** The count is the multiplicity of the status among the list's statuses. */
  lemma {:induction false} CountIsMultiplicity(apps: seq<JobApplication>, st: Status)
    ensures Count(apps, st) == multiset(StatusesOf(apps))[st]
    decreases |apps|
  {
    if |apps| > 0 {
      CountIsMultiplicity(apps[1..], st);
      assert StatusesOf(apps) == [apps[0].status] + StatusesOf(apps[1..]);
    }
  }

  /** The five status counts partition the list. */
  lemma {:induction false} CountsPartition(apps: seq<JobApplication>)
    ensures Count(apps, Applied) + Count(apps, Shortlisted) + Count(apps, InReview)
          + Count(apps, Rejected) + Count(apps, InterviewScheduled) == |apps|
    decreases |apps|
  {
    if |apps| > 0 {
      CountsPartition(apps[1..]);
    }
  }

  /** The stat tiles. */
  function ComputeStats(state: Option<AppState>): (r: Stats)
    ensures r.total == |ApplicationsOf(state)|
    ensures r.interviews == |InterviewsOf(state)|
    ensures r.shortlisted == multiset(StatusesOf(ApplicationsOf(state)))[Shortlisted]
    ensures r.inReview == multiset(StatusesOf(ApplicationsOf(state)))[InReview]
    ensures r.rejected == multiset(StatusesOf(ApplicationsOf(state)))[Rejected]
    ensures r.shortlisted + r.inReview + r.rejected <= r.total
    ensures state.None? ==> r == Stats(0, 0, 0, 0, 0)
  {
    var apps := ApplicationsOf(state);
    CountIsMultiplicity(apps, Shortlisted);
    CountIsMultiplicity(apps, InReview);
    CountIsMultiplicity(apps, Rejected);
    CountsPartition(apps);
    Stats(|apps|, Count(apps, Shortlisted), Count(apps, InReview), Count(apps, Rejected),
          |InterviewsOf(state)|)
  }

  function Min(a: int, b: int): int {
    if a <= b then a else b
  }

  /** The "Activity" list: `slice(0, 5)`, the first five in store order. */
  function Recent(apps: seq<JobApplication>): (r: seq<JobApplication>)
    ensures |r| == Min(5, |apps|)
    ensures forall i :: 0 <= i < |r| ==> r[i] == apps[i]
  {
    apps[..Min(5, |apps|)]
  }

  /** The "No applications found." placeholder. */
  predicate ShowsEmptyPlaceholder(state: Option<AppState>) {
    |ApplicationsOf(state)| == 0
  }

  /** The placeholder is shown exactly when the activity list is empty and the total is zero. */
  lemma PlaceholderIffNoApplications(state: Option<AppState>)
    ensures ShowsEmptyPlaceholder(state) <==> Recent(ApplicationsOf(state)) == []
    ensures ShowsEmptyPlaceholder(state) <==> ComputeStats(state).total == 0
  {
  }

  /** A new application heads the activity list, followed by the previous latest four. */
  lemma RecentAfterAdd(s: AppState, app: JobApplication)
    ensures Recent(Session.AddApplication(s, app).applications)
         == [app] + Recent(s.applications)[..Min(4, |s.applications|)]
  {
  }

  /** After five or more additions the activity list shows only the last five added,
      newest first. */
  lemma RecentAfterManyAdds(s: AppState, news: seq<JobApplication>)
    requires |news| >= 5
    ensures Recent(Session.AddAll(s, news).applications)
         == [news[|news| - 1], news[|news| - 2], news[|news| - 3], news[|news| - 4], news[|news| - 5]]
  {
    Session.AddAllIsLifo(s, news);
  }

  /** Adding an 'Applied' application raises the total by one and leaves the shortlisted,
      in-review and rejected tiles as they were. */
  lemma AddAppliedKeepsOtherTiles(s: AppState, app: JobApplication)
    requires app.status == Applied
    ensures var before := ComputeStats(Some(s));
            var after := ComputeStats(Some(Session.AddApplication(s, app)));
            after.total == before.total + 1
            && after.shortlisted == before.shortlisted
            && after.inReview == before.inReview
            && after.rejected == before.rejected
            && after.interviews == before.interviews
  {
  }
}
