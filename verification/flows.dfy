/** Properties that span components: a draft handed over by the wizard becomes the
    session's profile, and that profile decides the role of every auto-applied record. */
module Flows {
  import opened Wrappers
  import opened Types
  import Session
  import Onboarding
  import AutomationHub

  /** Completing the wizard from a fresh session gives a consistent, onboarded session whose
      profile is the draft as cast, with job type 'Full-time'. */
  lemma {:induction false} WizardCompletesSession(inputs: seq<Onboarding.Input>)
    requires Onboarding.Run(Onboarding.Start(), inputs).Finished?
    ensures var d := Onboarding.Run(Onboarding.Start(), inputs).profile;
            d.field.Some? && d.experience.Some? && d.location.Some? && d.jobType.Some?
            && var s := Session.CompleteOnboarding(Session.Initial(), Onboarding.AsUserProfile(d));
            Session.Consistent(s) && s.onboarded
            && s.profile.Some? && s.profile.value.jobType == FullTime
            && s.applications == [] && !s.isAutoApplying
  {
    Onboarding.RunPreservesValid(Onboarding.Start(), inputs);
  }

  /** The role of an auto-applied record: the role typed in the wizard when one was typed and
      it is non-empty; the pool pick when the role was left unset or typed empty. */
  lemma TypedRoleDecidesBotRole(d: Onboarding.Draft, draw: AutomationHub.Draw)
    requires d.field.Some? && d.experience.Some? && d.location.Some? && d.jobType.Some?
    requires draw.WellFormed()
    ensures var s := Session.CompleteOnboarding(Session.Initial(), Onboarding.AsUserProfile(d));
            var app := AutomationHub.Tick(s.profile, draw);
            (d.role.Some? && d.role.value != "" ==> app.role == d.role.value)
            && (d.role.None? || d.role.value == "" ==> app.role == AutomationHub.Roles[draw.role])
  {
  }

  /** A user who clicks straight through the wizard gets pool roles on every auto-applied record. */
  lemma ClickThroughGetsPoolRoles(draw: AutomationHub.Draw)
    requires draw.WellFormed()
    ensures var inputs := [Onboarding.PressPrimary, Onboarding.PressPrimary,
                           Onboarding.PressPrimary, Onboarding.PressPrimary];
            var d := Onboarding.Run(Onboarding.Start(), inputs).profile;
            Onboarding.Run(Onboarding.Start(), inputs).Finished?
            && AutomationHub.Tick(
                 Session.CompleteOnboarding(Session.Initial(), Onboarding.AsUserProfile(d)).profile,
                 draw).role in AutomationHub.Roles
  {
  }
}
