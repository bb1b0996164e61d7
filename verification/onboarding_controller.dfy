/** The backend's OnboardingController: the questionnaire submission, which
    validates before it writes, the status lookup, and the static question
    lists. */
module OnboardingController {
  import opened Text
  import opened Seqs
  import opened UserProfileModel

  /** What `areas_of_interest` arrives as in the JSON body. */
  datatype AreasValue = NoAreas | AreasText(text: string) | AreasList(items: seq<string>)

  /** JavaScript truthiness: absent and '' are falsy, every array is truthy. */
  predicate AreasGiven(v: AreasValue) {
    match v
    case NoAreas => false
    case AreasText(s) => s != ""
    case AreasList(_) => true
  }

  datatype SubmitBody = SubmitBody(
    jobTitle: Option<string>,
    experienceLevel: Option<string>,
    areasOfInterest: AreasValue,
    primaryGoals: Option<string>,
    industry: Option<string>,
    companySize: Option<string>)

  const MissingFields: string := "Please fill in all required fields"
  const NoInterests: string := "Please select at least one area of interest"
  const Completed: string := "Onboarding completed successfully"

  /** The two validations of submitOnboarding, in order: the four required
      fields, then a non-empty list of interests. Industry and company size
      are optional. */
  function SubmitCheck(b: SubmitBody): (err: Option<string>)
    ensures err.None? <==> Truthy(b.jobTitle) && Truthy(b.experienceLevel) && Truthy(b.primaryGoals)
                           && b.areasOfInterest.AreasList? && |b.areasOfInterest.items| > 0
    ensures err == Some(MissingFields) <==>
              !Truthy(b.jobTitle) || !Truthy(b.experienceLevel) || !AreasGiven(b.areasOfInterest) || !Truthy(b.primaryGoals)
    ensures err.Some? ==> err == Some(MissingFields) || err == Some(NoInterests)
  {
    if !Truthy(b.jobTitle) || !Truthy(b.experienceLevel) || !AreasGiven(b.areasOfInterest) || !Truthy(b.primaryGoals) then
      Some(MissingFields)
    else if !b.areasOfInterest.AreasList? || |b.areasOfInterest.items| == 0 then
      Some(NoInterests)
    else None
  }

  /** An empty list passes the first check but not the second; a string of
      interests is refused by the second. */
  lemma EmptyListIsNoInterests(b: SubmitBody)
    requires Truthy(b.jobTitle) && Truthy(b.experienceLevel) && Truthy(b.primaryGoals)
    requires b.areasOfInterest == AreasList([]) || (b.areasOfInterest.AreasText? && b.areasOfInterest.text != "")
    ensures SubmitCheck(b) == Some(NoInterests)
  {
  }

  /** The answers handed to createOrUpdateProfile. */
  function AnswersOf(b: SubmitBody): (a: Answers)
    requires b.areasOfInterest.AreasList?
    ensures a.areasOfInterest == Some(b.areasOfInterest.items)
    ensures a.jobTitle == b.jobTitle && a.experienceLevel == b.experienceLevel && a.primaryGoals == b.primaryGoals
    ensures a.industry == b.industry && a.companySize == b.companySize
  {
    Answers(b.jobTitle, b.experienceLevel, Some(b.areasOfInterest.items), b.primaryGoals, b.industry, b.companySize)
  }

  datatype Reply = Reply(status: int, message: string, profile: Option<ProfileRow>)

  /** submitOnboarding for the user the token names: 400 with no write on
      a failed check, otherwise the upserted profile with 200. */
  method SubmitOnboarding(t: ProfileTable, userId: int, b: SubmitBody) returns (r: Reply)
    requires t.Valid()
    modifies t
    ensures t.Valid()
    ensures SubmitCheck(b).Some? ==>
              r == Reply(400, SubmitCheck(b).value, None) && t.rows == old(t.rows) && t.nextId == old(t.nextId)
    ensures SubmitCheck(b).None? ==>
              r.status == 200 && r.message == Completed && r.profile.Some?
              && r.profile == t.GetByUserId(userId)
              && r.profile.value.answers == AnswersOf(b) && r.profile.value.onboardingCompleted
  {
    var err := SubmitCheck(b);
    if err.Some? {
      return Reply(400, err.value, None);
    }
    var profile := t.CreateOrUpdateProfile(userId, AnswersOf(b));
    r := Reply(200, Completed, Some(profile));
  }

  /** getOnboardingStatus: the completion flag and the profile, if any. */
  function OnboardingStatus(t: ProfileTable, userId: int): (r: (bool, Option<ProfileRow>))
    reads t
    ensures r.1.None? ==> !r.0
    ensures r.1 == t.GetByUserId(userId)
    ensures r.0 <==> r.1.Some? && r.1.value.onboardingCompleted
  {
    (t.IsOnboardingCompleted(userId), t.GetByUserId(userId))
  }

  const ExperienceLevels: seq<string> := [
    "Student",
    "Entry Level (0-2 years)",
    "Mid Level (3-5 years)",
    "Senior Level (6-10 years)",
    "Executive Level (10+ years)"
  ]

  const InterestAreas: seq<string> := [
    "Career Development",
    "Leadership & Management",
    "Entrepreneurship",
    "Product Management",
    "Software Engineering",
    "Data Science",
    "Marketing & Growth",
    "Sales & Business Development",
    "Design & UX",
    "Finance & Investing",
    "Operations & Strategy",
    "Personal Development",
    "Industry Transition",
    "Other"
  ]

  const Industries: seq<string> := [
    "Technology",
    "Healthcare",
    "Finance",
    "Education",
    "Retail",
    "Manufacturing",
    "Consulting",
    "Non-profit",
    "Government",
    "Media & Entertainment",
    "Real Estate",
    "Other"
  ]

  const CompanySizes: seq<string> := [
    "1-10 employees",
    "11-50 employees",
    "51-200 employees",
    "201-1000 employees",
    "1001-5000 employees",
    "5000+ employees"
  ]

  /** The frontend's own copies, EXPERIENCE_LEVELS and INTEREST_AREAS in
      frontend/src/shared/constants/mentors.ts, spelled out separately so that
      OnboardingQuestions can show the two sides agree. */
  const FrontendExperienceLevels: seq<string> := [
    "Student",
    "Entry Level (0-2 years)",
    "Mid Level (3-5 years)",
    "Senior Level (6-10 years)",
    "Executive Level (10+ years)"
  ]

  const FrontendInterestAreas: seq<string> := [
    "Career Development",
    "Leadership & Management",
    "Entrepreneurship",
    "Product Management",
    "Software Engineering",
    "Data Science",
    "Marketing & Growth",
    "Sales & Business Development",
    "Design & UX",
    "Finance & Investing",
    "Operations & Strategy",
    "Personal Development",
    "Industry Transition",
    "Other"
  ]

  datatype Questions = Questions(experienceLevels: seq<string>, areasOfInterest: seq<string>,
                                 industries: seq<string>, companySizes: seq<string>)

  /** getOnboardingQuestions: 5 levels, 14 interests, 12 industries and 6
      company sizes, the first two as the frontend offers them. */
  function OnboardingQuestions(): (q: Questions)
    ensures |q.experienceLevels| == 5 && |q.areasOfInterest| == 14
    ensures |q.industries| == 12 && |q.companySizes| == 6
    ensures q.experienceLevels == FrontendExperienceLevels && q.areasOfInterest == FrontendInterestAreas
    ensures NoDup(q.experienceLevels) && NoDup(q.areasOfInterest)
  {
    assert forall i, j :: 0 <= i < j < |InterestAreas| ==> InterestAreas[i] != InterestAreas[j] by {
      forall i, j | 0 <= i < j < |InterestAreas| ensures InterestAreas[i] != InterestAreas[j] {
        InterestAreasDistinct(i, j);
      }
    }
    Questions(ExperienceLevels, InterestAreas, Industries, CompanySizes)
  }

  lemma InterestAreasDistinct(i: int, j: int)
    requires 0 <= i < j < |InterestAreas|
    ensures InterestAreas[i] != InterestAreas[j]
  {
  }
}
