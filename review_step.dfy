/** The review step of onboarding: which sections are filled in and whether
    the whole form is complete. */
module ReviewStep {
  import opened Common
  import opened OnboardingWizard

  /** `c.trim() !== ""`. */
  predicate IsFilled(c: string)
  {
    Trim(c) != ""
  }

  /** `formData.competitors?.filter(c => c.trim() !== "") || []`. */
  function FilledCompetitors(competitors: Option<seq<string>>): seq<string>
  {
    if competitors.Some? then Filter(competitors.value, IsFilled) else []
  }

  /** The filled competitors are, in their order, exactly the entries that are
      not blank (empty or only whitespace). */
  lemma FilledCompetitorsSpec(competitors: seq<string>)
    ensures forall c :: c in FilledCompetitors(Some(competitors)) ==> c in competitors && !IsBlank(c)
    ensures forall c :: c in competitors && !IsBlank(c) ==> c in FilledCompetitors(Some(competitors))
    ensures IsSubsequence(FilledCompetitors(Some(competitors)), competitors)
    ensures FilledCompetitors(None) == []
  {
    FilterKeeps(competitors, IsFilled);
    forall c: string ensures IsFilled(c) <==> !IsBlank(c) {
      TrimEmptyIffBlank(c);
    }
  }

  predicate LinkedInSectionOk(f: OnboardingForm)
  {
    f.linkedinUrl != ""
  }

  predicate CompanySectionOk(f: OnboardingForm)
  {
    f.websiteUrl != "" && f.companyDescription != "" && f.mainMessage != ""
  }

  predicate IcpSectionOk(f: OnboardingForm)
  {
    f.icpDescription != "" && f.industry != "" && f.companySize != ""
  }

  predicate CompetitorsSectionOk(f: OnboardingForm)
  {
    |FilledCompetitors(Some(f.competitors))| >= 1
  }

  /** `isComplete`: the seven text fields are set and one competitor is filled. */
  predicate IsComplete(f: OnboardingForm)
  {
    f.linkedinUrl != "" && f.websiteUrl != "" && f.companyDescription != "" && f.mainMessage != ""
    && f.icpDescription != "" && f.industry != "" && f.companySize != ""
    && |FilledCompetitors(Some(f.competitors))| >= 1
  }

  /** The form is complete exactly when every section shows as done. */
  lemma CompleteIffAllSections(f: OnboardingForm)
    ensures IsComplete(f) <==>
      LinkedInSectionOk(f) && CompanySectionOk(f) && IcpSectionOk(f) && CompetitorsSectionOk(f)
  {
  }

  /** Competitors that are only whitespace never make the form complete. */
  lemma BlankCompetitorsNeverComplete(f: OnboardingForm)
    requires forall i :: 0 <= i < |f.competitors| ==> IsBlank(f.competitors[i])
    ensures !IsComplete(f)
  {
    forall i | 0 <= i < |f.competitors| ensures !IsFilled(f.competitors[i]) {
      TrimEmptyIffBlank(f.competitors[i]);
    }
    FilterKeeps(f.competitors, IsFilled);
  }

  /** Conversely, one competitor with a visible character is enough for the
      competitors section. */
  lemma OneFilledCompetitorSuffices(f: OnboardingForm, i: int)
    requires 0 <= i < |f.competitors| && !IsBlank(f.competitors[i])
    ensures CompetitorsSectionOk(f)
  {
    FilledCompetitorsSpec(f.competitors);
    assert f.competitors[i] in FilledCompetitors(Some(f.competitors));
  }

  /** The form the wizard starts with is not complete. */
  lemma BlankFormIncomplete()
    ensures !IsComplete(BlankForm)
  {
  }
}
