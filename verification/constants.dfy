/** The fixed lists and tables the interface is built from. The option lists for
    experience, location and job type are plain strings; the parse functions
    below say which union member each string denotes, which is what makes the
    unchecked `as any` casts of the onboarding buttons safe. */
module Constants {
  import opened Wrappers
  import opened Types
  import Seqs

  const JobFields: seq<JobField> := [
    SoftwareDeveloper, DataAnalyst, ProductAnalyst, CyberSecurity,
    DigitalMarketing, Finance, Sales, Teaching, Other
  ]

  const ExperienceLevels: seq<string> := ["Fresher", "1-3", "3-5", "5+"]
  const Locations: seq<string> := ["Remote", "On-site", "Hybrid"]
  const JobTypes: seq<string> := ["Full-time", "Part-time", "Internship", "Contract"]

  /** One entry of the bottom navigation bar: its id and its label (the icon is presentation and is not modelled). */
  datatype NavItem = NavItem(id: string, caption: string)

  const Navigation: seq<NavItem> := [
    NavItem("dashboard", "Home"),
    NavItem("automation", "Apply"),
    NavItem("resume", "Resume"),
    NavItem("interviews", "Interviews"),
    NavItem("profile", "Profile")
  ]

  function NavIds(): seq<string> {
    seq(|Navigation|, i requires 0 <= i < |Navigation| => Navigation[i].id)
  }

  /** Badge classes per application status. */
  const StatusColors: map<Status, string> := map[
    Applied := "bg-blue-100 text-blue-700",
    Shortlisted := "bg-green-100 text-green-700",
    InReview := "bg-yellow-100 text-yellow-700",
    Rejected := "bg-red-100 text-red-700",
    InterviewScheduled := "bg-purple-100 text-purple-700"
  ]

  /** The string of an experience button read as a union member, if it is one. */
  function ParseExperience(s: string): (r: Option<Experience>)
    ensures r.Some? ==> ExperienceName(r.value) == s
    ensures r.None? ==> forall e :: ExperienceName(e) != s
  {
    if s == "Fresher" then Some(Fresher)
    else if s == "1-3" then Some(OneToThree)
    else if s == "3-5" then Some(ThreeToFive)
    else if s == "5+" then Some(FivePlus)
    else None
  }

  /** The string of a work-mode button read as a union member, if it is one. */
  function ParseLocation(s: string): (r: Option<WorkLocation>)
    ensures r.Some? ==> LocationName(r.value) == s
    ensures r.None? ==> forall l :: LocationName(l) != s
  {
    if s == "Remote" then Some(Remote)
    else if s == "On-site" then Some(OnSite)
    else if s == "Hybrid" then Some(Hybrid)
    else None
  }

  /** A job-type string read as a union member, if it is one. */
  function ParseJobType(s: string): (r: Option<JobType>)
    ensures r.Some? ==> JobTypeName(r.value) == s
    ensures r.None? ==> forall t :: JobTypeName(t) != s
  {
    if s == "Full-time" then Some(FullTime)
    else if s == "Part-time" then Some(PartTime)
    else if s == "Internship" then Some(Internship)
    else if s == "Contract" then Some(Contract)
    else None
  }

  /** The position of each field in the field list. */
  function JobFieldOrdinal(f: JobField): int {
    match f
    case SoftwareDeveloper => 0
    case DataAnalyst => 1
    case ProductAnalyst => 2
    case CyberSecurity => 3
    case DigitalMarketing => 4
    case Finance => 5
    case Sales => 6
    case Teaching => 7
    case Other => 8
  }

  /** The field list holds each of the nine job fields exactly once. */
  lemma JobFieldsCoverUnion()
    ensures |JobFields| == 9 && Seqs.Distinct(JobFields)
    ensures forall f: JobField :: f in JobFields
  {
    Seqs.DistinctByPosition(JobFields, JobFieldOrdinal);
    forall f: JobField ensures f in JobFields {
      match f
      case SoftwareDeveloper => assert JobFields[0] == f;
      case DataAnalyst => assert JobFields[1] == f;
      case ProductAnalyst => assert JobFields[2] == f;
      case CyberSecurity => assert JobFields[3] == f;
      case DigitalMarketing => assert JobFields[4] == f;
      case Finance => assert JobFields[5] == f;
      case Sales => assert JobFields[6] == f;
      case Teaching => assert JobFields[7] == f;
      case Other => assert JobFields[8] == f;
    }
  }

  /** Each option list is duplicate-free, every entry denotes a union member, and
      every union member has an entry: the lists coincide with the unions. */
  lemma OptionListsMatchUnions()
    ensures Seqs.Distinct(ExperienceLevels) && Seqs.Distinct(Locations) && Seqs.Distinct(JobTypes)
    ensures forall i :: 0 <= i < |ExperienceLevels| ==> ParseExperience(ExperienceLevels[i]).Some?
    ensures forall e: Experience :: ExperienceName(e) in ExperienceLevels
    ensures forall i :: 0 <= i < |Locations| ==> ParseLocation(Locations[i]).Some?
    ensures forall l: WorkLocation :: LocationName(l) in Locations
    ensures forall i :: 0 <= i < |JobTypes| ==> ParseJobType(JobTypes[i]).Some?
    ensures forall t: JobType :: JobTypeName(t) in JobTypes
  {
  }

  /** Five distinct tab ids, among them the dashboard. */
  lemma NavigationIdsDistinct()
    ensures |NavIds()| == 5 && Seqs.Distinct(NavIds())
    ensures "dashboard" in NavIds()
  {
    assert NavIds() == ["dashboard", "automation", "resume", "interviews", "profile"];
    Seqs.DistinctByPosition(NavIds(),
      s => if |s| == 0 then -1 else if s[0] == 'd' then 0 else if s[0] == 'a' then 1
           else if s[0] == 'r' then 2 else if s[0] == 'i' then 3 else if s[0] == 'p' then 4 else -1);
  }

  /** The colour table has an entry for exactly the five statuses. */
  lemma StatusColorsCoverStatuses()
    ensures forall s: Status :: s in StatusColors
    ensures StatusColors.Keys == set s: Status | s in AllStatuses
    ensures |StatusColors| == 5
  {
    ApplicationUnionsHaveFiveValues();
    forall s: Status ensures s in StatusColors {
      match s
      case Applied => assert Applied in StatusColors;
      case Shortlisted => assert Shortlisted in StatusColors;
      case InReview => assert InReview in StatusColors;
      case Rejected => assert Rejected in StatusColors;
      case InterviewScheduled => assert InterviewScheduled in StatusColors;
    }
    assert StatusColors.Keys == {Applied, Shortlisted, InReview, Rejected, InterviewScheduled};
  }

  /** The badge lookup of the activity list: total over statuses, so no status falls
      through to the grey fallback class. */
  function StatusBadge(s: Status): (c: string)
    ensures s in StatusColors && c == StatusColors[s]
    ensures c != "bg-gray-100"
  {
    StatusColorsCoverStatuses();
    StatusColors[s]
  }
}
