/** The entities of the session: closed string unions become datatypes, each with
    the exact display string the interface and the CSV export use. */
module Types {
  import opened Wrappers
  import Seqs

  datatype JobField =
    | SoftwareDeveloper | DataAnalyst | ProductAnalyst | CyberSecurity
    | DigitalMarketing | Finance | Sales | Teaching | Other

  datatype Experience = Fresher | OneToThree | ThreeToFive | FivePlus

  datatype WorkLocation = Remote | OnSite | Hybrid

  datatype JobType = FullTime | PartTime | Internship | Contract

  datatype Platform = LinkedIn | Indeed | Naukri | Foundit | CareerPage

  datatype Status = Applied | Shortlisted | InReview | Rejected | InterviewScheduled

  datatype InterviewType = HR | Technical | Final

  function JobFieldName(f: JobField): string {
    match f
    case SoftwareDeveloper => "Software Developer"
    case DataAnalyst => "Data Analyst"
    case ProductAnalyst => "Product Analyst"
    case CyberSecurity => "Cyber Security"
    case DigitalMarketing => "Digital Marketing"
    case Finance => "Finance"
    case Sales => "Sales"
    case Teaching => "Teaching"
    case Other => "Other"
  }

  function ExperienceName(e: Experience): string {
    match e
    case Fresher => "Fresher"
    case OneToThree => "1-3"
    case ThreeToFive => "3-5"
    case FivePlus => "5+"
  }

  function LocationName(l: WorkLocation): string {
    match l
    case Remote => "Remote"
    case OnSite => "On-site"
    case Hybrid => "Hybrid"
  }

  function JobTypeName(t: JobType): string {
    match t
    case FullTime => "Full-time"
    case PartTime => "Part-time"
    case Internship => "Internship"
    case Contract => "Contract"
  }

  function PlatformName(p: Platform): string {
    match p
    case LinkedIn => "LinkedIn"
    case Indeed => "Indeed"
    case Naukri => "Naukri"
    case Foundit => "Foundit"
    case CareerPage => "CareerPage"
  }

  function StatusName(s: Status): string {
    match s
    case Applied => "Applied"
    case Shortlisted => "Shortlisted"
    case InReview => "In Review"
    case Rejected => "Rejected"
    case InterviewScheduled => "Interview Scheduled"
  }

  /** Every value of each union, in declaration order. */
  const AllPlatforms: seq<Platform> := [LinkedIn, Indeed, Naukri, Foundit, CareerPage]
  const AllStatuses: seq<Status> := [Applied, Shortlisted, InReview, Rejected, InterviewScheduled]

  /** Distinct union members carry distinct strings, so each datatype is exactly its union. */
  lemma NamesAreInjective()
    ensures forall a, b :: JobFieldName(a) == JobFieldName(b) ==> a == b
    ensures forall a, b :: ExperienceName(a) == ExperienceName(b) ==> a == b
    ensures forall a, b :: LocationName(a) == LocationName(b) ==> a == b
    ensures forall a, b :: JobTypeName(a) == JobTypeName(b) ==> a == b
    ensures forall a, b :: PlatformName(a) == PlatformName(b) ==> a == b
    ensures forall a, b :: StatusName(a) == StatusName(b) ==> a == b
  {
  }

  /** The two five-valued unions of a job application. */
  lemma ApplicationUnionsHaveFiveValues()
    ensures |AllPlatforms| == 5 && |AllStatuses| == 5
    ensures forall p: Platform :: p in AllPlatforms
    ensures forall s: Status :: s in AllStatuses
    ensures Seqs.Distinct(AllPlatforms) && Seqs.Distinct(AllStatuses)
  {
    Seqs.DistinctByPosition(AllPlatforms,
      (p: Platform) => match p case LinkedIn => 0 case Indeed => 1 case Naukri => 2 case Foundit => 3 case CareerPage => 4);
    Seqs.DistinctByPosition(AllStatuses,
      (s: Status) => match s case Applied => 0 case Shortlisted => 1 case InReview => 2 case Rejected => 3
                   case InterviewScheduled => 4);
    forall p: Platform ensures p in AllPlatforms {
      match p
      case LinkedIn => assert AllPlatforms[0] == p;
      case Indeed => assert AllPlatforms[1] == p;
      case Naukri => assert AllPlatforms[2] == p;
      case Foundit => assert AllPlatforms[3] == p;
      case CareerPage => assert AllPlatforms[4] == p;
    }
    forall s: Status ensures s in AllStatuses {
      match s
      case Applied => assert AllStatuses[0] == s;
      case Shortlisted => assert AllStatuses[1] == s;
      case InReview => assert AllStatuses[2] == s;
      case Rejected => assert AllStatuses[3] == s;
      case InterviewScheduled => assert AllStatuses[4] == s;
    }
  }

  /** A user's profile. `customField`, `linkedinUrl` and `portfolioUrl` are optional. */
  datatype UserProfile = UserProfile(
    name: string,
    field: JobField,
    customField: Option<string>,
    role: string,
    experience: Experience,
    location: WorkLocation,
    jobType: JobType,
    email: string,
    phone: string,
    resumeText: string,
    linkedinUrl: Option<string>,
    portfolioUrl: Option<string>)

  /** One submitted application. `id` is an opaque token; `appliedDate` is display text. */
  datatype JobApplication = JobApplication(
    id: string,
    companyName: string,
    role: string,
    platform: Platform,
    status: Status,
    appliedDate: string,
    matchScore: int)

  /** A scheduled interview; `tips` is optional. */
  datatype Interview = Interview(
    id: string,
    companyName: string,
    role: string,
    date: string,
    time: string,
    kind: InterviewType,
    tips: Option<seq<string>>)

  /** The session state: the profile may be null; both lists are ordered, newest application first. */
  datatype AppState = AppState(
    onboarded: bool,
    profile: Option<UserProfile>,
    applications: seq<JobApplication>,
    interviews: seq<Interview>,
    isAutoApplying: bool)
}
