/**
 * The intake wizard of the home page: ten fixed steps, a validator per step, the
 * form state with its field updates and the goal toggle, and the step navigation
 * that hands the finished form to the submission endpoint.
 */
module Wizard {
  import opened Values
  import opened Text

  datatype StepId =
    | Intro | Industry | Website | CompanySize | AiAdoption | AiTalent
    | BusinessGoals | ResponseSpeed | MissedCalls | AdditionalContext

  /** The wizard's steps, in the order they are shown. */
  const Steps: seq<StepId> := [
    Intro, Industry, Website, CompanySize, AiAdoption,
    AiTalent, BusinessGoals, ResponseSpeed, MissedCalls, AdditionalContext
  ]

  /** Ten distinct steps, from the intro to the additional context. */
  lemma StepsInOrder()
    ensures |Steps| == 10 && Steps[0] == Intro && Steps[|Steps| - 1] == AdditionalContext
    ensures forall i, j :: 0 <= i < j < |Steps| ==> Steps[i] != Steps[j]
  {
  }

  datatype CompanySizeChoice = Small | Medium | Large
  datatype AiAdoptionChoice = NoAdoption | Experimenting | FewPlaces | Mature
  datatype AiTalentChoice = InHouse | Consultants | NoTalent

  /** The goal labels the business-goals step offers. */
  const BusinessGoalOptions: seq<string> := [
    "Increase revenue",
    "Reduce costs",
    "Improve customer experience",
    "Accelerate product development",
    "Expand into new markets"
  ]

  datatype FormState = FormState(
    email: string,
    consent: bool,
    industry: string,
    websiteUrl: string,
    companyName: string,
    companySize: Option<CompanySizeChoice>,
    aiAdoption: Option<AiAdoptionChoice>,
    aiTalent: Option<AiTalentChoice>,
    businessGoals: seq<string>,
    responseSpeed: Option<string>,
    missedCalls: Option<string>,
    additionalContext: string)

  /** The form as the page first renders it. */
  const InitialForm := FormState("", false, "", "", "", None, None, None, [], None, None, "")

  /** Whether the user may leave `step` with the answers in `form`. */
  function CanContinue(step: StepId, form: FormState): (r: bool)
    ensures step == Intro ==> (r <==> form.consent && '@' in form.email && Utf16Length(Trim(form.email)) > 3)
    ensures step == Intro && r ==> Utf16Length(form.email) > 3
    ensures step == Industry ==> (r <==> Utf16Length(Trim(form.industry)) > 1)
    ensures step == Website ==> (r <==> !AllWhitespace(form.websiteUrl) || Utf16Length(Trim(form.companyName)) > 1)
    ensures step == CompanySize ==> (r <==> form.companySize.Some?)
    ensures step == AiAdoption ==> (r <==> form.aiAdoption.Some?)
    ensures step == AiTalent ==> (r <==> form.aiTalent.Some?)
    ensures step == BusinessGoals ==> (r <==> form.businessGoals != [])
    ensures step == ResponseSpeed ==> (r <==> form.responseSpeed.Some? && form.responseSpeed.value != "")
    ensures step == MissedCalls ==> (r <==> form.missedCalls.Some? && form.missedCalls.value != "")
    ensures step == AdditionalContext ==> r
  {
    match step
    case Intro =>
      TrimShorter(form.email);
      Utf16Length(Trim(form.email)) > 3 && '@' in form.email && form.consent
    case Industry => Utf16Length(Trim(form.industry)) > 1
    case Website => Utf16Length(Trim(form.websiteUrl)) > 0 || Utf16Length(Trim(form.companyName)) > 1
    case CompanySize => form.companySize.Some?
    case AiAdoption => form.aiAdoption.Some?
    case AiTalent => form.aiTalent.Some?
    case BusinessGoals => |form.businessGoals| > 0
    case ResponseSpeed => form.responseSpeed.Some? && form.responseSpeed.value != ""
    case MissedCalls => form.missedCalls.Some? && form.missedCalls.value != ""
    case AdditionalContext => true
  }

  /**
   * A character beyond the Basic Multilingual Plane counts twice, as `.length` counts
   * it: a lone emoji is long enough for the industry step.
   */
  lemma AstralIndustryContinues()
    ensures CanContinue(Industry, InitialForm.(industry := "\U{1F600}"))
  {
    var s := "\U{1F600}";
    assert !IsWhitespace(s[0]);
    assert Trim(s) == s;
  }

  // ---------------------------------------------------------------------------
  // update(key, value)

  datatype FieldKey =
    | EmailKey | ConsentKey | IndustryKey | WebsiteUrlKey | CompanyNameKey | CompanySizeKey
    | AiAdoptionKey | AiTalentKey | BusinessGoalsKey | ResponseSpeedKey | MissedCallsKey
    | AdditionalContextKey

  /** One call `update(key, value)`: the key together with a value of that key's type. */
  datatype FieldUpdate =
    | SetEmail(email: string)
    | SetConsent(consent: bool)
    | SetIndustry(industry: string)
    | SetWebsiteUrl(websiteUrl: string)
    | SetCompanyName(companyName: string)
    | SetCompanySize(companySize: Option<CompanySizeChoice>)
    | SetAiAdoption(aiAdoption: Option<AiAdoptionChoice>)
    | SetAiTalent(aiTalent: Option<AiTalentChoice>)
    | SetBusinessGoals(businessGoals: seq<string>)
    | SetResponseSpeed(responseSpeed: Option<string>)
    | SetMissedCalls(missedCalls: Option<string>)
    | SetAdditionalContext(additionalContext: string)

  function KeyOf(u: FieldUpdate): FieldKey
  {
    match u
    case SetEmail(_) => EmailKey
    case SetConsent(_) => ConsentKey
    case SetIndustry(_) => IndustryKey
    case SetWebsiteUrl(_) => WebsiteUrlKey
    case SetCompanyName(_) => CompanyNameKey
    case SetCompanySize(_) => CompanySizeKey
    case SetAiAdoption(_) => AiAdoptionKey
    case SetAiTalent(_) => AiTalentKey
    case SetBusinessGoals(_) => BusinessGoalsKey
    case SetResponseSpeed(_) => ResponseSpeedKey
    case SetMissedCalls(_) => MissedCallsKey
    case SetAdditionalContext(_) => AdditionalContextKey
  }

  /** Field `k` holds the same value in `f` and `g`. */
  predicate SameAt(f: FormState, g: FormState, k: FieldKey)
  {
    match k
    case EmailKey => f.email == g.email
    case ConsentKey => f.consent == g.consent
    case IndustryKey => f.industry == g.industry
    case WebsiteUrlKey => f.websiteUrl == g.websiteUrl
    case CompanyNameKey => f.companyName == g.companyName
    case CompanySizeKey => f.companySize == g.companySize
    case AiAdoptionKey => f.aiAdoption == g.aiAdoption
    case AiTalentKey => f.aiTalent == g.aiTalent
    case BusinessGoalsKey => f.businessGoals == g.businessGoals
    case ResponseSpeedKey => f.responseSpeed == g.responseSpeed
    case MissedCallsKey => f.missedCalls == g.missedCalls
    case AdditionalContextKey => f.additionalContext == g.additionalContext
  }

  /** The field that `u` names holds `u`'s value in `g`. */
  predicate Holds(g: FormState, u: FieldUpdate)
  {
    match u
    case SetEmail(v) => g.email == v
    case SetConsent(v) => g.consent == v
    case SetIndustry(v) => g.industry == v
    case SetWebsiteUrl(v) => g.websiteUrl == v
    case SetCompanyName(v) => g.companyName == v
    case SetCompanySize(v) => g.companySize == v
    case SetAiAdoption(v) => g.aiAdoption == v
    case SetAiTalent(v) => g.aiTalent == v
    case SetBusinessGoals(v) => g.businessGoals == v
    case SetResponseSpeed(v) => g.responseSpeed == v
    case SetMissedCalls(v) => g.missedCalls == v
    case SetAdditionalContext(v) => g.additionalContext == v
  }

  /** `{ ...prev, [key]: value }`: the named field takes the value and every other field is kept. */
  function Updated(f: FormState, u: FieldUpdate): (g: FormState)
    ensures Holds(g, u)
    ensures forall k :: k != KeyOf(u) ==> SameAt(f, g, k)
  {
    match u
    case SetEmail(v) => f.(email := v)
    case SetConsent(v) => f.(consent := v)
    case SetIndustry(v) => f.(industry := v)
    case SetWebsiteUrl(v) => f.(websiteUrl := v)
    case SetCompanyName(v) => f.(companyName := v)
    case SetCompanySize(v) => f.(companySize := v)
    case SetAiAdoption(v) => f.(aiAdoption := v)
    case SetAiTalent(v) => f.(aiTalent := v)
    case SetBusinessGoals(v) => f.(businessGoals := v)
    case SetResponseSpeed(v) => f.(responseSpeed := v)
    case SetMissedCalls(v) => f.(missedCalls := v)
    case SetAdditionalContext(v) => f.(additionalContext := v)
  }

  // ---------------------------------------------------------------------------
  // toggleGoal(goal)

  /** `goals.filter((g) => g !== goal)`: every occurrence of `goal` removed, the rest kept in order. */
  function Without(goals: seq<string>, goal: string): (r: seq<string>)
    ensures |r| <= |goals|
    ensures goal in goals ==> |r| < |goals|
    ensures goal !in r
    ensures forall x :: x != goal ==> (x in r <==> x in goals)
    ensures goal !in goals ==> r == goals
  {
    if goals == [] then []
    else if goals[0] == goal then Without(goals[1..], goal)
    else [goals[0]] + Without(goals[1..], goal)
  }

  /**
   * A goal already chosen is removed, the others keeping their order (`ToggledRemovesAt`);
   * otherwise it is appended at the end.
   */
  function Toggled(goals: seq<string>, goal: string): (r: seq<string>)
    ensures goal in goals ==> goal !in r && |r| < |goals|
    ensures goal !in goals ==> |r| == |goals| + 1 && r[..|goals|] == goals && r[|goals|] == goal
  {
    if goal in goals then Without(goals, goal) else goals + [goal]
  }

  predicate NoDuplicates(s: seq<string>)
  {
    forall i, j :: 0 <= i < j < |s| ==> s[i] != s[j]
  }

  /** After a toggle, `goal` is chosen exactly when it was not before, and nothing else changes membership. */
  lemma ToggledMembership(goals: seq<string>, goal: string, x: string)
    ensures x in Toggled(goals, goal) <==> (if x == goal then goal !in goals else x in goals)
  {
  }

  /** Filtering keeps a list free of duplicates. */
  lemma {:induction false} WithoutNoDuplicates(goals: seq<string>, goal: string)
    requires NoDuplicates(goals)
    ensures NoDuplicates(Without(goals, goal))
  {
    if goals != [] {
      var rest := goals[1..];
      assert NoDuplicates(rest) by {
        forall i, j | 0 <= i < j < |rest| ensures rest[i] != rest[j] {
          assert rest[i] == goals[i + 1] && rest[j] == goals[j + 1];
        }
      }
      WithoutNoDuplicates(rest, goal);
      if goals[0] != goal {
        assert goals[0] !in rest by {
          forall j | 0 <= j < |rest| ensures rest[j] != goals[0] {
            assert rest[j] == goals[j + 1];
          }
        }
        var w := Without(rest, goal);
        assert goals[0] !in w;
        var r := [goals[0]] + w;
        forall i, j | 0 <= i < j < |r| ensures r[i] != r[j] {
          if i == 0 {
            assert r[j] == w[j - 1];
          } else {
            assert r[i] == w[i - 1] && r[j] == w[j - 1];
          }
        }
      }
    }
  }

  /** The goal list never gains a duplicate through toggling. */
  lemma ToggledNoDuplicates(goals: seq<string>, goal: string)
    requires NoDuplicates(goals)
    ensures NoDuplicates(Toggled(goals, goal))
  {
    if goal in goals {
      WithoutNoDuplicates(goals, goal);
    } else {
      var r := goals + [goal];
      forall i, j | 0 <= i < j < |r| ensures r[i] != r[j] {
        if j == |goals| {
          assert r[i] == goals[i];
        }
      }
    }
  }

  /** On a list without duplicates, filtering out a chosen goal removes it from its position and keeps the rest in order. */
  lemma {:induction false} WithoutRemovesAt(goals: seq<string>, goal: string, i: nat)
    requires NoDuplicates(goals) && i < |goals| && goals[i] == goal
    ensures Without(goals, goal) == goals[..i] + goals[i + 1..]
    decreases i
  {
    var rest := goals[1..];
    NoDuplicatesTail(goals);
    if i == 0 {
      assert Without(goals, goal) == Without(rest, goal) == rest;
      assert goals[..0] + goals[1..] == rest;
    } else {
      assert goal == rest[i - 1];
      assert Without(goals, goal) == [goals[0]] + Without(rest, goal);
      WithoutRemovesAt(rest, goal, i - 1);
      ConsRemoveAt(goals, i);
    }
  }

  /** Removing position `i > 0` commutes with putting the head back in front. */
  lemma ConsRemoveAt(s: seq<string>, i: nat)
    requires 0 < i < |s|
    ensures [s[0]] + (s[1..][..i - 1] + s[1..][i..]) == s[..i] + s[i + 1..]
  {
    assert s[1..][..i - 1] == s[1..i];
    assert s[1..][i..] == s[i + 1..];
    assert [s[0]] + s[1..i] == s[..i];
  }

  /** The tail of a list without duplicates has none either, and does not hold the head. */
  lemma NoDuplicatesTail(goals: seq<string>)
    requires NoDuplicates(goals) && goals != []
    ensures NoDuplicates(goals[1..]) && goals[0] !in goals[1..]
  {
    var rest := goals[1..];
    forall a, b | 0 <= a < b < |rest| ensures rest[a] != rest[b] {
      assert rest[a] == goals[a + 1] && rest[b] == goals[b + 1];
    }
    forall j | 0 <= j < |rest| ensures rest[j] != goals[0] {
      assert rest[j] == goals[j + 1];
    }
  }

  /** Toggling off a chosen goal removes it from its position and keeps the other goals in order. */
  lemma ToggledRemovesAt(goals: seq<string>, goal: string, i: nat)
    requires NoDuplicates(goals) && i < |goals| && goals[i] == goal
    ensures Toggled(goals, goal) == goals[..i] + goals[i + 1..]
  {
    WithoutRemovesAt(goals, goal, i);
  }

  /** Toggling a goal that was not chosen, twice, gives back the original list. */
  lemma {:induction false} ToggleTwiceRestores(goals: seq<string>, goal: string)
    requires goal !in goals
    ensures Toggled(Toggled(goals, goal), goal) == goals
  {
    WithoutAppended(goals, goal);
  }

  lemma {:induction false} WithoutAppended(goals: seq<string>, goal: string)
    requires goal !in goals
    ensures Without(goals + [goal], goal) == goals
  {
    if goals != [] {
      assert (goals + [goal])[1..] == goals[1..] + [goal];
      WithoutAppended(goals[1..], goal);
    }
  }

  /** Toggling one of the offered goals keeps the list within the offered goals. */
  lemma ToggledStaysWithinOptions(goals: seq<string>, goal: string)
    requires forall g :: g in goals ==> g in BusinessGoalOptions
    requires goal in BusinessGoalOptions
    ensures forall g :: g in Toggled(goals, goal) ==> g in BusinessGoalOptions
  {
  }

  // ---------------------------------------------------------------------------
  // The page's state and its transitions

  class Home {
    var stepIndex: int
    var form: FormState
    var error: Option<string>
    /** Every form handed to handleSubmit, oldest first. */
    var submitted: seq<FormState>

    ghost predicate Valid()
      reads this
    {
      0 <= stepIndex < |Steps|
    }

    constructor ()
      ensures Valid()
      ensures stepIndex == 0 && form == InitialForm && error == None && submitted == []
    {
      stepIndex := 0;
      form := InitialForm;
      error := None;
      submitted := [];
    }

    function CurrentStep(): StepId
      requires Valid()
      reads this
    {
      Steps[stepIndex]
    }

    /** `update(key, value)`: only the form changes, and only at the named field. */
    method Update(u: FieldUpdate)
      modifies this
      ensures form == Updated(old(form), u)
      ensures stepIndex == old(stepIndex) && error == old(error) && submitted == old(submitted)
    {
      form := Updated(form, u);
    }

    /** `toggleGoal(goal)` */
    method ToggleGoal(goal: string)
      modifies this
      ensures form == old(form).(businessGoals := Toggled(old(form.businessGoals), goal))
      ensures stepIndex == old(stepIndex) && error == old(error) && submitted == old(submitted)
    {
      form := form.(businessGoals := Toggled(form.businessGoals, goal));
    }

    /**
     * `goNext()`: nothing happens while the current step cannot be left; at the last
     * step the form is submitted and the step stays; elsewhere the step advances by one.
     * The error is cleared whenever the step can be left.
     */
    method GoNext()
      requires Valid()
      modifies this
      ensures Valid()
      ensures form == old(form)
      ensures !CanContinue(Steps[old(stepIndex)], old(form)) ==>
        stepIndex == old(stepIndex) && error == old(error) && submitted == old(submitted)
      ensures CanContinue(Steps[old(stepIndex)], old(form)) && old(stepIndex) == |Steps| - 1 ==>
        stepIndex == old(stepIndex) && error == None && submitted == old(submitted) + [old(form)]
      ensures CanContinue(Steps[old(stepIndex)], old(form)) && old(stepIndex) < |Steps| - 1 ==>
        stepIndex == old(stepIndex) + 1 && error == None && submitted == old(submitted)
    {
      if !CanContinue(CurrentStep(), form) {
        return;
      }
      if stepIndex == |Steps| - 1 {
        // handleSubmit clears the error before it posts the form
        error := None;
        submitted := submitted + [form];
      } else {
        stepIndex := stepIndex + 1;
        error := None;
      }
    }

    /** `goBack()`: nothing happens at the first step; elsewhere the step goes back by one and the error is cleared. */
    method GoBack()
      requires Valid()
      modifies this
      ensures Valid()
      ensures form == old(form) && submitted == old(submitted)
      ensures old(stepIndex) == 0 ==> stepIndex == 0 && error == old(error)
      ensures old(stepIndex) > 0 ==> stepIndex == old(stepIndex) - 1 && error == None
    {
      if stepIndex == 0 {
        return;
      }
      stepIndex := stepIndex - 1;
      error := None;
    }
  }
}
