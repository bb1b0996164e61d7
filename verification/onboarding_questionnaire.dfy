/** The five-step onboarding questionnaire: the step counter, the answers
    being filled in, the interest checkboxes and the gate that enables the
    Next and Submit buttons. */
module OnboardingQuestionnaire {
  import opened Text
  import opened Seqs

  const TotalSteps: int := 5

  /** formData */
  datatype Form = Form(
    jobTitle: string,
    experienceLevel: string,
    areasOfInterest: seq<string>,
    primaryGoals: string,
    industry: string,
    companySize: string)

  const EmptyForm: Form := Form("", "", [], "", "", "")

  /** The text fields `handleInputChange` is called with. */
  datatype TextField = JobTitle | ExperienceLevel | PrimaryGoals | Industry | CompanySize

  /** `{ ...prev, [field]: value }`: the named field takes the value, the
      others keep theirs. */
  function SetField(f: Form, field: TextField, value: string): (r: Form)
    ensures r.areasOfInterest == f.areasOfInterest
    ensures r.jobTitle == (if field == JobTitle then value else f.jobTitle)
    ensures r.experienceLevel == (if field == ExperienceLevel then value else f.experienceLevel)
    ensures r.primaryGoals == (if field == PrimaryGoals then value else f.primaryGoals)
    ensures r.industry == (if field == Industry then value else f.industry)
    ensures r.companySize == (if field == CompanySize then value else f.companySize)
  {
    match field
    case JobTitle => f.(jobTitle := value)
    case ExperienceLevel => f.(experienceLevel := value)
    case PrimaryGoals => f.(primaryGoals := value)
    case Industry => f.(industry := value)
    case CompanySize => f.(companySize := value)
  }

  /** handleInterestToggle on the list: drop the interest if present,
      append it otherwise. */
  function Toggled(interests: seq<string>, interest: string): (r: seq<string>)
    ensures forall x :: x in r <==> (x in interests) != (x == interest)
  {
    if interest in interests then Filter(interests, (x: string) => x != interest) else interests + [interest]
  }

  /** Toggling keeps the list free of duplicates. */
  lemma ToggledNoDup(interests: seq<string>, interest: string)
    requires NoDup(interests)
    ensures NoDup(Toggled(interests, interest))
  {
    if interest in interests {
      var distinct := (a: string, b: string) => a != b;
      assert Pairwise(interests, distinct);
      FilterPairwise(interests, (x: string) => x != interest, distinct);
    }
  }

  /** Toggling an unchecked interest twice gives back the same list;
      toggling a checked one twice gives back the same interests, the
      toggled one moved to the end. */
  lemma ToggleTwice(interests: seq<string>, interest: string)
    ensures interest !in interests ==> Toggled(Toggled(interests, interest), interest) == interests
    ensures forall x :: x in Toggled(Toggled(interests, interest), interest) <==> x in interests
  {
    if interest !in interests {
      FilterAll(interests, (x: string) => x != interest);
      assert interest in interests + [interest];
      FilterAppendDropped(interests, interest);
    }
  }

  lemma {:induction false} FilterAppendDropped(s: seq<string>, y: string)
    requires y !in s
    ensures Filter(s + [y], (x: string) => x != y) == s
  {
    if s == [] {
      assert Filter([y], (x: string) => x != y) == [] + Filter([y][1..], (x: string) => x != y);
    } else {
      assert (s + [y])[1..] == s[1..] + [y];
      FilterAppendDropped(s[1..], y);
      assert (s + [y])[0] == s[0];
    }
  }

  /** canProceed: the gate for each step. */
  function CanProceed(step: int, f: Form): (ok: bool)
    ensures ok ==> 1 <= step <= TotalSteps
    ensures step == 1 ==> (ok <==> Trim(f.jobTitle) != "")
    ensures step == 2 ==> (ok <==> f.experienceLevel != "")
    ensures step == 3 ==> (ok <==> |f.areasOfInterest| > 0)
    ensures step == 4 ==> (ok <==> Trim(f.primaryGoals) != "")
    ensures step == 5 ==> (ok <==> f.industry != "" && f.companySize != "")
  {
    match step
    case 1 => Trim(f.jobTitle) != ""
    case 2 => f.experienceLevel != ""
    case 3 => |f.areasOfInterest| > 0
    case 4 => Trim(f.primaryGoals) != ""
    case 5 => f.industry != "" && f.companySize != ""
    case _ => false
  }

  /** A blank answer of spaces does not open step 1 or 4. */
  lemma BlankAnswersBlock(f: Form, spaces: string)
    requires forall i :: 0 <= i < |spaces| ==> IsSpace(spaces[i])
    ensures !CanProceed(1, f.(jobTitle := spaces))
    ensures !CanProceed(4, f.(primaryGoals := spaces))
  {
    TrimEmptyIff(spaces);
  }

  class Questionnaire {
    var currentStep: int
    var form: Form
    var isLoading: bool

    ghost predicate Valid()
      reads this
    {
      1 <= currentStep <= TotalSteps
    }

    constructor ()
      ensures Valid() && currentStep == 1 && form == EmptyForm && !isLoading
    {
      currentStep := 1;
      form := EmptyForm;
      isLoading := false;
    }

    /** nextStep */
    method NextStep()
      requires Valid()
      modifies this
      ensures Valid() && form == old(form)
      ensures currentStep == if old(currentStep) < TotalSteps then old(currentStep) + 1 else old(currentStep)
    {
      if currentStep < TotalSteps {
        currentStep := currentStep + 1;
      }
    }

    /** prevStep */
    method PrevStep()
      requires Valid()
      modifies this
      ensures Valid() && form == old(form)
      ensures currentStep == if old(currentStep) > 1 then old(currentStep) - 1 else old(currentStep)
    {
      if currentStep > 1 {
        currentStep := currentStep - 1;
      }
    }

    /** The Next button, which is disabled until the current step's gate
        opens: the step advances exactly when it is not the last and its
        gate is open. */
    method ClickNext()
      requires Valid()
      modifies this
      ensures Valid() && form == old(form)
      ensures currentStep == old(currentStep) + 1 <==> old(currentStep) < TotalSteps && CanProceed(old(currentStep), old(form))
      ensures currentStep != old(currentStep) + 1 ==> currentStep == old(currentStep)
    {
      if currentStep < TotalSteps && CanProceed(currentStep, form) {
        NextStep();
      }
    }

    /** Whether the Submit button is enabled: on the last step, with
        industry and company size chosen, and no submission under way. */
    function SubmitEnabled(): (enabled: bool)
      reads this
      ensures enabled <==> currentStep == TotalSteps && form.industry != "" && form.companySize != "" && !isLoading
    {
      currentStep == TotalSteps && CanProceed(currentStep, form) && !isLoading
    }

    /** handleInputChange */
    method HandleInputChange(field: TextField, value: string)
      requires Valid()
      modifies this
      ensures Valid() && currentStep == old(currentStep)
      ensures form == SetField(old(form), field, value)
    {
      form := SetField(form, field, value);
    }

    /** handleInterestToggle */
    method HandleInterestToggle(interest: string)
      requires Valid()
      modifies this
      ensures Valid() && currentStep == old(currentStep)
      ensures form == old(form).(areasOfInterest := Toggled(old(form).areasOfInterest, interest))
    {
      form := form.(areasOfInterest := Toggled(form.areasOfInterest, interest));
    }
  }
}
