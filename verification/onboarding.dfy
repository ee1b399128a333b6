/** The four-step onboarding wizard: a step counter, a partial profile that the
    inputs of each step update one field at a time, and the Back/Continue/Get Started
    buttons. The raw step functions are unbounded; the step stays within 1..4 only
    because Back is rendered when the step is above 1 and the primary button finishes
    instead of advancing at step 4. */
module Onboarding {
  import opened Wrappers
  import opened Types

  /** `Partial<UserProfile>`: every field may be unset. */
  datatype Draft = Draft(
    name: Option<string>,
    field: Option<JobField>,
    customField: Option<string>,
    role: Option<string>,
    experience: Option<Experience>,
    location: Option<WorkLocation>,
    jobType: Option<JobType>,
    email: Option<string>,
    phone: Option<string>,
    resumeText: Option<string>,
    linkedinUrl: Option<string>,
    portfolioUrl: Option<string>)

  datatype Wizard = Wizard(step: int, draft: Draft)

  /** The draft the wizard opens with: four preset choices, everything else unset. */
  function InitialDraft(): (d: Draft)
    ensures d.field == Some(SoftwareDeveloper) && d.experience == Some(Fresher)
    ensures d.location == Some(Remote) && d.jobType == Some(FullTime)
    ensures d.name.None? && d.role.None? && d.email.None? && d.phone.None? && d.resumeText.None?
    ensures d.customField.None? && d.linkedinUrl.None? && d.portfolioUrl.None?
  {
    Draft(None, Some(SoftwareDeveloper), None, None, Some(Fresher), Some(Remote), Some(FullTime),
          None, None, None, None, None)
  }

  function Start(): (w: Wizard)
    ensures w.step == 1 && w.draft == InitialDraft()
  {
    Wizard(1, InitialDraft())
  }

  /** `nextStep` and `prevStep` as written: no bound of their own. */
  function NextStep(step: int): int { step + 1 }
  function PrevStep(step: int): int { step - 1 }

  // Field setters: each replaces one field of the draft and keeps the others.

  function SetField(d: Draft, f: JobField): (r: Draft)
    ensures r.field == Some(f) && r.(field := d.field) == d
  {
    d.(field := Some(f))
  }

  function SetRole(d: Draft, text: string): (r: Draft)
    ensures r.role == Some(text) && r.(role := d.role) == d
  {
    d.(role := Some(text))
  }

  function SetExperience(d: Draft, e: Experience): (r: Draft)
    ensures r.experience == Some(e) && r.(experience := d.experience) == d
  {
    d.(experience := Some(e))
  }

  function SetLocation(d: Draft, l: WorkLocation): (r: Draft)
    ensures r.location == Some(l) && r.(location := d.location) == d
  {
    d.(location := Some(l))
  }

  function SetName(d: Draft, text: string): (r: Draft)
    ensures r.name == Some(text) && r.(name := d.name) == d
  {
    d.(name := Some(text))
  }

  function SetEmail(d: Draft, text: string): (r: Draft)
    ensures r.email == Some(text) && r.(email := d.email) == d
  {
    d.(email := Some(text))
  }

  function SetPhone(d: Draft, text: string): (r: Draft)
    ensures r.phone == Some(text) && r.(phone := d.phone) == d
  {
    d.(phone := Some(text))
  }

  function SetResume(d: Draft, text: string): (r: Draft)
    ensures r.resumeText == Some(text) && r.(resumeText := d.resumeText) == d
  {
    d.(resumeText := Some(text))
  }

  /** The user's inputs: a field button, a text input, or one of the two buttons at the bottom. */
  datatype Input =
    | PickField(f: JobField)
    | TypeRole(text: string)
    | PickExperience(level: Experience)
    | PickLocation(mode: WorkLocation)
    | TypeName(text: string)
    | TypeEmail(text: string)
    | TypePhone(text: string)
    | TypeResume(text: string)
    | PressBack
    | PressPrimary

  /** Whether the input edits the draft (rather than moving between steps). */
  predicate Edits(i: Input) {
    !i.PressBack? && !i.PressPrimary?
  }

  /** The draft field an editing input writes: name, field, role, experience, location,
      e-mail, phone, resume text, numbered in that order. */
  function EditedField(i: Input): nat
    requires Edits(i)
  {
    match i
    case TypeName(_) => 0
    case PickField(_) => 1
    case TypeRole(_) => 2
    case PickExperience(_) => 3
    case PickLocation(_) => 4
    case TypeEmail(_) => 5
    case TypePhone(_) => 6
    case TypeResume(_) => 7
  }

  /** The setter an editing input calls. */
  function Edit(d: Draft, i: Input): Draft
    requires Edits(i)
  {
    match i
    case PickField(f) => SetField(d, f)
    case TypeRole(t) => SetRole(d, t)
    case PickExperience(e) => SetExperience(d, e)
    case PickLocation(l) => SetLocation(d, l)
    case TypeName(t) => SetName(d, t)
    case TypeEmail(t) => SetEmail(d, t)
    case TypePhone(t) => SetPhone(d, t)
    case TypeResume(t) => SetResume(d, t)
  }

  /** Whether the input is on screen at the current step: each step renders its own
      controls, Back is rendered above step 1, the primary button always. */
  predicate Offered(w: Wizard, i: Input) {
    match i
    case PickField(_) => w.step == 1
    case TypeRole(_) => w.step == 2
    case PickExperience(_) => w.step == 2
    case PickLocation(_) => w.step == 2
    case TypeName(_) => w.step == 3
    case TypeEmail(_) => w.step == 3
    case TypePhone(_) => w.step == 3
    case TypeResume(_) => w.step == 4
    case PressBack => w.step > 1
    case PressPrimary => true
  }

  /** After an input the wizard is still editing, or it has handed a draft to the session. */
  datatype Outcome = Editing(wizard: Wizard) | Finished(profile: Draft)

  function Apply(w: Wizard, i: Input): Outcome
    requires Offered(w, i)
  {
    if Edits(i) then Editing(w.(draft := Edit(w.draft, i)))
    else if i.PressBack? then Editing(w.(step := PrevStep(w.step)))
    else if w.step == 4 then Finished(w.draft)
    else Editing(w.(step := NextStep(w.step)))
  }

  /** A sequence of inputs; one that is not on screen cannot be performed and is skipped,
      and nothing happens after the draft has been handed over. */
  function Run(w: Wizard, inputs: seq<Input>): Outcome
    decreases |inputs|
  {
    if |inputs| == 0 then Editing(w)
    else if !Offered(w, inputs[0]) then Run(w, inputs[1..])
    else match Apply(w, inputs[0])
      case Finished(d) => Finished(d)
      case Editing(w') => Run(w', inputs[1..])
  }

  /** What every wizard reachable from the start satisfies: the step is one of 1..4; the
      four preset choices are set (job type has no input, so it stays 'Full-time'); the
      optional extras have no input either and stay unset. */
  predicate Valid(w: Wizard) {
    && 1 <= w.step <= 4
    && w.draft.field.Some? && w.draft.experience.Some? && w.draft.location.Some?
    && w.draft.jobType == Some(FullTime)
    && w.draft.customField.None? && w.draft.linkedinUrl.None? && w.draft.portfolioUrl.None?
  }

  /** The guarded buttons keep the step in 1..4, moving it by at most one; only the
      primary button at step 4 finishes, and it hands the draft over unchanged. */
  lemma ApplyPreservesValid(w: Wizard, i: Input)
    requires Valid(w) && Offered(w, i)
    ensures Apply(w, i).Finished? <==> i.PressPrimary? && w.step == 4
    ensures Apply(w, i).Finished? ==> Apply(w, i).profile == w.draft
    ensures Apply(w, i).Editing? ==> Valid(Apply(w, i).wizard)
    ensures Apply(w, i).Editing? ==> -1 <= Apply(w, i).wizard.step - w.step <= 1
  {
  }

  /** Every run from a valid wizard stays valid, and a finished run hands over a draft with
      the presets set and the extras unset. */
  lemma {:induction false} RunPreservesValid(w: Wizard, inputs: seq<Input>)
    requires Valid(w)
    ensures Run(w, inputs).Editing? ==> Valid(Run(w, inputs).wizard)
    ensures Run(w, inputs).Finished? ==> Valid(Wizard(4, Run(w, inputs).profile))
    decreases |inputs|
  {
    if |inputs| > 0 {
      if !Offered(w, inputs[0]) {
        RunPreservesValid(w, inputs[1..]);
      } else {
        ApplyPreservesValid(w, inputs[0]);
        match Apply(w, inputs[0])
        case Finished(d) =>
        case Editing(w') => RunPreservesValid(w', inputs[1..]);
      }
    }
  }

  /** No field is validated: pressing the primary button four times finishes with the
      untouched initial draft, with no name, role, e-mail, phone or resume. */
  lemma FinishWithoutInput()
    ensures Run(Start(), [PressPrimary, PressPrimary, PressPrimary, PressPrimary]) == Finished(InitialDraft())
  {
  }

  /** The bound comes from the guard alone: at the first step Back is not on screen, and
      the raw decrement would leave the range. */
  lemma BackGuardKeepsStepPositive()
    ensures !Offered(Start(), PressBack) && PrevStep(Start().step) == 0
    ensures Offered(Wizard(4, InitialDraft()), PressPrimary)
    ensures Apply(Wizard(4, InitialDraft()), PressPrimary).Finished?
    ensures NextStep(4) == 5
  {
  }

  /** Any two of the eight setters commute when they write different fields; of two writes
      to the same field, the later wins. */
  lemma SettersCommute(d: Draft, i: Input, j: Input)
    requires Edits(i) && Edits(j)
    ensures EditedField(i) != EditedField(j) ==> Edit(Edit(d, i), j) == Edit(Edit(d, j), i)
    ensures EditedField(i) == EditedField(j) ==> Edit(Edit(d, i), j) == Edit(d, j)
  {
  }

  /** The step panel: one per step, none outside 1..4. */
  datatype Panel = FieldPicker | Preferences | ContactDetails | ResumeAndPortfolio

  function StepPanel(step: int): (p: Option<Panel>)
    ensures p.Some? <==> 1 <= step <= 4
  {
    if step == 1 then Some(FieldPicker)
    else if step == 2 then Some(Preferences)
    else if step == 3 then Some(ContactDetails)
    else if step == 4 then Some(ResumeAndPortfolio)
    else None
  }

  /** The progress bar: segment `i` (1..4) is highlighted when the step has reached it. */
  function Progress(step: int): (bar: seq<bool>)
    ensures |bar| == 4
    ensures forall j, k :: 0 <= j <= k < 4 && bar[k] ==> bar[j]
    ensures step <= 0 <==> forall k :: 0 <= k < 4 ==> !bar[k]
    ensures step >= 4 <==> forall k :: 0 <= k < 4 ==> bar[k]
  {
    var bar := seq(4, k requires 0 <= k < 4 => step >= k + 1);
    assert bar[0] <==> step >= 1;
    assert bar[3] <==> step >= 4;
    bar
  }

  function CountHighlighted(bar: seq<bool>): nat
    decreases |bar|
  {
    if |bar| == 0 then 0 else (if bar[0] then 1 else 0) + CountHighlighted(bar[1..])
  }

  /** On every reachable step the bar lights exactly `step` segments, all at the front,
      and a panel is rendered. */
  lemma ProgressMatchesStep(w: Wizard)
    requires Valid(w)
    ensures CountHighlighted(Progress(w.step)) == w.step
    ensures forall k :: 0 <= k < 4 ==> (Progress(w.step)[k] <==> k < w.step)
    ensures StepPanel(w.step).Some?
  {
    var b := Progress(w.step);
    assert b[1..][1..][1..][1..] == [];
    assert CountHighlighted(b[1..][1..][1..]) == (if b[3] then 1 else 0);
    assert CountHighlighted(b[1..][1..]) == (if b[2] then 1 else 0) + (if b[3] then 1 else 0);
    assert CountHighlighted(b[1..]) == (if b[1] then 1 else 0) + (if b[2] then 1 else 0) + (if b[3] then 1 else 0);
  }

  /** The type cast `profile as UserProfile` made when the draft reaches the session:
      an unset text field is read as the empty string, which behaves like the unset
      value wherever the session reads it (`||` and the input fallbacks `|| ''`). */
  function AsUserProfile(d: Draft): (p: UserProfile)
    requires d.field.Some? && d.experience.Some? && d.location.Some? && d.jobType.Some?
    ensures p.field == d.field.value && p.experience == d.experience.value
    ensures p.location == d.location.value && p.jobType == d.jobType.value
    ensures p.name == d.name.GetOr("") && p.role == d.role.GetOr("") && p.email == d.email.GetOr("")
    ensures p.phone == d.phone.GetOr("") && p.resumeText == d.resumeText.GetOr("")
    ensures p.customField == d.customField && p.linkedinUrl == d.linkedinUrl
    ensures p.portfolioUrl == d.portfolioUrl
  {
    UserProfile(d.name.GetOr(""), d.field.value, d.customField, d.role.GetOr(""),
                d.experience.value, d.location.value, d.jobType.value,
                d.email.GetOr(""), d.phone.GetOr(""), d.resumeText.GetOr(""),
                d.linkedinUrl, d.portfolioUrl)
  }

  /** A complete profile seen as a draft with every required field set. */
  function ToDraft(p: UserProfile): (d: Draft)
    ensures d.field.Some? && d.experience.Some? && d.location.Some? && d.jobType.Some?
  {
    Draft(Some(p.name), Some(p.field), p.customField, Some(p.role), Some(p.experience),
          Some(p.location), Some(p.jobType), Some(p.email), Some(p.phone), Some(p.resumeText),
          p.linkedinUrl, p.portfolioUrl)
  }

  /** The cast loses nothing from a complete profile, and loses nothing from a draft whose
      text fields are all set: only an unset text field is changed, to "". */
  lemma CastRoundTrip(p: UserProfile, d: Draft)
    requires d.field.Some? && d.experience.Some? && d.location.Some? && d.jobType.Some?
    ensures AsUserProfile(ToDraft(p)) == p
    ensures d.name.Some? && d.role.Some? && d.email.Some? && d.phone.Some? && d.resumeText.Some?
            <==> ToDraft(AsUserProfile(d)) == d
  {
  }

}
