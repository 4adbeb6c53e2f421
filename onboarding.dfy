// src/components/onboarding/OnboardingFlow.tsx: the three-step wizard shown
// before the main application. Step 1 picks one skill level, step 2 toggles
// languages, step 3 toggles goals; Next is enabled only when the current step
// has a choice, and Next on the last step hands the answers to `onComplete`.

module Onboarding {

  import opened Common
  import opened Selection

  const TotalSteps := 3

  const SkillLevelIds: seq<string> := ["beginner", "intermediate", "advanced"]
  const LanguageIds: seq<string> :=
    ["python", "javascript", "cpp", "java", "react", "ml", "web", "algorithms"]
  const GoalIds: seq<string> := ["career", "interview", "project", "learn", "upgrade", "freelance"]

  datatype OnboardingData = OnboardingData(skillLevel: string, languages: seq<string>, goals: seq<string>)

  /** `canProceed`: each step asks for its own choice; any other step value
      never proceeds. With all three answers given, Next is enabled on every
      step of the wizard; with none given, on no step. */
  function CanProceed(step: int, skillLevel: string, languages: seq<string>, goals: seq<string>): (r: bool)
    ensures r ==> 1 <= step <= TotalSteps
    ensures step == 1 ==> (r <==> skillLevel != "")
    ensures step == 2 ==> (r <==> |languages| > 0)
    ensures step == 3 ==> (r <==> |goals| > 0)
    ensures skillLevel != "" && |languages| > 0 && |goals| > 0 ==> (r <==> 1 <= step <= TotalSteps)
    ensures skillLevel == "" && languages == [] && goals == [] ==> !r
  {
    match step
    case 1 => skillLevel != ""
    case 2 => |languages| > 0
    case 3 => |goals| > 0
    case _ => false
  }

  /** The label of the forward button. */
  function NextLabel(step: int): (r: string)
    ensures r == "Get Started!" <==> step == TotalSteps
  {
    if step == TotalSteps then "Get Started!" else "Next"
  }

  class OnboardingFlow {
    var step: int
    var skillLevel: string
    var languages: seq<string>
    var goals: seq<string>

    /** The step stays within 1..3, the selections hold known ids without
        repeats, and a later step is reached only with the earlier choices made. */
    ghost predicate Valid()
      reads this
    {
      && 1 <= step <= TotalSteps
      && NoDups(languages) && NoDups(goals)
      && (forall l :: l in languages ==> l in LanguageIds)
      && (forall g :: g in goals ==> g in GoalIds)
      && (skillLevel == "" || skillLevel in SkillLevelIds)
      && (step >= 2 ==> skillLevel != "")
      && (step >= 3 ==> |languages| > 0)
    }

    predicate CanProceedNow()
      reads this
    {
      CanProceed(step, skillLevel, languages, goals)
    }

    constructor ()
      ensures Valid()
      ensures step == 1 && skillLevel == "" && languages == [] && goals == []
    {
      step := 1;
      skillLevel := "";
      languages := [];
      goals := [];
    }

    /** A skill button of step 1: the choice replaces any earlier one. */
    method ChooseSkill(id: string)
      requires Valid() && step == 1 && id in SkillLevelIds
      modifies this
      ensures Valid()
      ensures skillLevel == id
      ensures step == old(step) && languages == old(languages) && goals == old(goals)
    {
      skillLevel := id;
    }

    /** A language button of step 2. */
    method ClickLanguage(id: string)
      requires Valid() && step == 2 && id in LanguageIds
      modifies this
      ensures Valid()
      ensures languages == Toggle(old(languages), id)
      ensures step == old(step) && skillLevel == old(skillLevel) && goals == old(goals)
    {
      ToggleKeepsNoDups(languages, id);
      languages := Toggle(languages, id);
    }

    /** A goal button of step 3. */
    method ClickGoal(id: string)
      requires Valid() && step == 3 && id in GoalIds
      modifies this
      ensures Valid()
      ensures goals == Toggle(old(goals), id)
      ensures step == old(step) && skillLevel == old(skillLevel) && languages == old(languages)
    {
      ToggleKeepsNoDups(goals, id);
      goals := Toggle(goals, id);
    }

    /** The forward button: disabled unless the step can proceed; otherwise it
        moves one step on, or on the last step completes with the answers as
        they stand and leaves the step where it is. */
    method ClickNext() returns (completed: Option<OnboardingData>)
      requires Valid()
      modifies this
      ensures Valid()
      ensures skillLevel == old(skillLevel) && languages == old(languages) && goals == old(goals)
      ensures !old(CanProceedNow()) ==> completed == None && step == old(step)
      ensures old(CanProceedNow()) && old(step) < TotalSteps ==> completed == None && step == old(step) + 1
      ensures old(CanProceedNow()) && old(step) == TotalSteps ==>
        completed == Some(OnboardingData(skillLevel, languages, goals)) && step == old(step)
      ensures completed.Some? ==>
        completed.value.skillLevel in SkillLevelIds && |completed.value.languages| > 0 && |completed.value.goals| > 0
      ensures completed.Some? <==> old(CanProceedNow()) && NextLabel(old(step)) == "Get Started!"
    {
      completed := None;
      if CanProceedNow() {
        if step < TotalSteps {
          step := step + 1;
        } else {
          completed := Some(OnboardingData(skillLevel, languages, goals));
        }
      }
    }

    /** The back button: disabled on step 1, otherwise `max(1, step - 1)`. */
    method ClickBack()
      requires Valid()
      modifies this
      ensures Valid()
      ensures step == if old(step) == 1 then 1 else old(step) - 1
      ensures skillLevel == old(skillLevel) && languages == old(languages) && goals == old(goals)
    {
      if step != 1 {
        step := if step - 1 < 1 then 1 else step - 1;
      }
    }
  }
}
