/** The five-step onboarding wizard: a step cursor with Back and Continue,
    and the form the steps fill in. */
module OnboardingWizard {
  /** The text fields of the onboarding form. */
  datatype TextField = LinkedinUrl | WebsiteUrl | CompanyDescription | MainMessage | IcpDescription | Industry | CompanySize

  datatype OnboardingForm = OnboardingForm(
    linkedinUrl: string,
    websiteUrl: string,
    companyDescription: string,
    mainMessage: string,
    icpDescription: string,
    industry: string,
    companySize: string,
    competitors: seq<string>)

  /** One call of `updateFormData(field, value)`. */
  datatype FormUpdate = SetText(field: TextField, value: string) | SetCompetitors(competitors: seq<string>)

  const StepTitles: seq<string> := ["LinkedIn Profile", "Company Info", "Target Audience", "Competitors", "Review & Submit"]
  const StepCount: int := 5

  const BlankForm: OnboardingForm := OnboardingForm("", "", "", "", "", "", "", ["", "", ""])

  function FieldValue(f: OnboardingForm, field: TextField): string
  {
    match field
    case LinkedinUrl => f.linkedinUrl
    case WebsiteUrl => f.websiteUrl
    case CompanyDescription => f.companyDescription
    case MainMessage => f.mainMessage
    case IcpDescription => f.icpDescription
    case Industry => f.industry
    case CompanySize => f.companySize
  }

  /** `{ ...prev, [field]: value }`: the named field takes the value and every
      other field keeps its own. */
  function Apply(f: OnboardingForm, u: FormUpdate): (r: OnboardingForm)
    ensures u.SetText? ==> FieldValue(r, u.field) == u.value && r.competitors == f.competitors
    ensures u.SetText? ==> forall g :: g != u.field ==> FieldValue(r, g) == FieldValue(f, g)
    ensures u.SetCompetitors? ==> r.competitors == u.competitors && forall g :: FieldValue(r, g) == FieldValue(f, g)
  {
    match u
    case SetCompetitors(c) => f.(competitors := c)
    case SetText(field, v) =>
      match field
      case LinkedinUrl => f.(linkedinUrl := v)
      case WebsiteUrl => f.(websiteUrl := v)
      case CompanyDescription => f.(companyDescription := v)
      case MainMessage => f.(mainMessage := v)
      case IcpDescription => f.(icpDescription := v)
      case Industry => f.(industry := v)
      case CompanySize => f.(companySize := v)
  }

  /** Updates to different fields commute, and a second update of the same
      field overrides the first. */
  lemma UpdatesToDistinctFieldsCommute(f: OnboardingForm, a: TextField, b: TextField, x: string, y: string)
    ensures a != b ==> Apply(Apply(f, SetText(a, x)), SetText(b, y)) == Apply(Apply(f, SetText(b, y)), SetText(a, x))
    ensures Apply(Apply(f, SetText(a, x)), SetText(a, y)) == Apply(f, SetText(a, y))
  {
  }

  /** How a step appears in the progress bar. */
  datatype StepMark = Done | Current | Ahead

  predicate StepCompleted(id: int, currentStep: int)
  {
    id < currentStep
  }

  function StepMarkOf(id: int, currentStep: int): (m: StepMark)
    ensures m == Done <==> StepCompleted(id, currentStep)
    ensures m == Current <==> id == currentStep
  {
    if id < currentStep then Done else if id == currentStep then Current else Ahead
  }

  /** At any position of the cursor exactly the earlier steps are done and
      exactly one step is current. */
  lemma ProgressBarShape(currentStep: int)
    requires 1 <= currentStep <= StepCount
    ensures forall id :: 1 <= id <= StepCount ==> (StepMarkOf(id, currentStep) == Done <==> id < currentStep)
    ensures forall id :: 1 <= id <= StepCount && StepMarkOf(id, currentStep) == Current ==> id == currentStep
  {
  }

  class Wizard {
    var currentStep: int
    var formData: OnboardingForm

    ghost predicate Valid()
      reads this
    {
      1 <= currentStep <= StepCount
    }

    predicate IsFirstStep()
      reads this
    {
      currentStep == 1
    }

    predicate IsLastStep()
      reads this
    {
      currentStep == StepCount
    }

    /** The Back button is disabled on the first step. */
    predicate BackDisabled()
      reads this
    {
      IsFirstStep()
    }

    constructor()
      ensures Valid() && currentStep == 1 && formData == BlankForm
    {
      currentStep := 1;
      formData := BlankForm;
    }

    /** Continue: the next step whatever the form holds; on the last step it
        reports completion (`onComplete`) and stays. */
    method Next() returns (completed: bool)
      requires Valid()
      modifies this`currentStep
      ensures Valid()
      ensures completed <==> old(currentStep) == StepCount
      ensures completed ==> currentStep == old(currentStep)
      ensures !completed ==> currentStep == old(currentStep) + 1
    {
      if currentStep == StepCount {
        completed := true;
      } else {
        completed := false;
        currentStep := currentStep + 1;
      }
    }

    method Back()
      requires Valid()
      modifies this`currentStep
      ensures Valid()
      ensures old(currentStep) == 1 ==> currentStep == 1
      ensures old(currentStep) > 1 ==> currentStep == old(currentStep) - 1
    {
      if currentStep != 1 {
        currentStep := currentStep - 1;
      }
    }

    method UpdateFormData(u: FormUpdate)
      modifies this`formData
      ensures formData == Apply(old(formData), u)
    {
      match u
      case SetCompetitors(c) =>
        formData := formData.(competitors := c);
      case SetText(field, v) =>
        match field
        case LinkedinUrl => formData := formData.(linkedinUrl := v);
        case WebsiteUrl => formData := formData.(websiteUrl := v);
        case CompanyDescription => formData := formData.(companyDescription := v);
        case MainMessage => formData := formData.(mainMessage := v);
        case IcpDescription => formData := formData.(icpDescription := v);
        case Industry => formData := formData.(industry := v);
        case CompanySize => formData := formData.(companySize := v);
    }
  }
}
