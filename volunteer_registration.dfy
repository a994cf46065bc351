/**
 * The volunteer sign-up form: the skill chips that toggle in and out of the form's skill
 * list, and the simulated submission that ends by closing the form.
 */
module VolunteerRegistration {
  import opened Seqs

  /** The skill chips offered, in display order. */
  const AvailableSkills: seq<string> := ["medical", "rescue", "logistics", "communication"]

  /** `skills.filter(s => s !== skill)`: every occurrence of the skill removed. */
  function RemoveAll(skills: seq<string>, skill: string): (r: seq<string>)
    ensures skill !in r
    ensures forall x :: x != skill ==> (x in r <==> x in skills)
  {
    Filter(skills, (s: string) => s != skill)
  }

  /**
   * `handleSkillToggle`'s update of the skill list: a skill already present is removed
   * everywhere; an absent one is appended at the end.
   */
  function ToggleSkill(skills: seq<string>, skill: string): (r: seq<string>)
    ensures skill in skills ==> skill !in r && forall x :: x != skill ==> (x in r <==> x in skills)
    ensures skill !in skills ==> r == skills + [skill]
  {
    if skill in skills then RemoveAll(skills, skill) else skills + [skill]
  }

  /** Removing every occurrence takes the skill's count to zero and leaves every other count. */
  lemma {:induction false} RemoveAllCounts(skills: seq<string>, skill: string)
    ensures multiset(RemoveAll(skills, skill)) == multiset(skills)[skill := 0]
  {
    if skills != [] {
      var tail := skills[1..];
      assert skills == [skills[0]] + tail;
      RemoveAllCounts(tail, skill);
    }
  }

  /** Toggling keeps a duplicate-free skill list duplicate-free. */
  lemma ToggleKeepsNoDup(skills: seq<string>, skill: string)
    requires NoDup(skills)
    ensures NoDup(ToggleSkill(skills, skill))
  {
    if skill in skills {
      FilterNoDup(skills, (s: string) => s != skill);
    } else {
      var r := skills + [skill];
      forall i, j | 0 <= i < j < |r| ensures r[i] != r[j] {
        if j == |skills| {
          assert r[i] == skills[i];
        }
      }
    }
  }

  /** Toggling an absent skill twice gives back exactly the list it started from. */
  lemma ToggleTwiceAbsentRestores(skills: seq<string>, skill: string)
    requires skill !in skills
    ensures ToggleSkill(ToggleSkill(skills, skill), skill) == skills
  {
    var p := (s: string) => s != skill;
    FilterAppend(skills, [skill], p);
    FilterKeepsAll(skills, p);
    assert Filter([skill], p) == [];
  }

  /**
   * Toggling a present skill twice on a duplicate-free list gives back the same skills,
   * each once, with the toggled one moved to the end.
   */
  lemma ToggleTwicePresentRestoresSkills(skills: seq<string>, skill: string)
    requires NoDup(skills) && skill in skills
    ensures var r := ToggleSkill(ToggleSkill(skills, skill), skill);
      multiset(r) == multiset(skills) && r[|r| - 1] == skill
  {
    RemoveAllCounts(skills, skill);
    NoDupOccursOnce(skills, skill);
    var once := ToggleSkill(skills, skill);
    assert multiset(once + [skill]) == multiset(once) + multiset{skill};
  }

  /** The list itself is not always restored: a present skill that is not last moves to the end. */
  lemma ToggleTwiceCanReorder()
    ensures ToggleSkill(ToggleSkill(["medical", "rescue"], "medical"), "medical") == ["rescue", "medical"]
  {
    var p := (s: string) => s != "medical";
    assert ["medical", "rescue"][1..] == ["rescue"];
    assert Filter(["rescue"], p) == ["rescue"];
    assert Filter(["medical", "rescue"], p) == ["rescue"];
  }

  /** The form's state; `closeCount` counts calls of the `onClose` callback. */
  class RegistrationForm {
    var name: string
    var phone: string
    var location: string
    var skills: seq<string>
    var isSubmitting: bool
    var closeCount: nat

    constructor ()
      ensures name == "" && phone == "" && location == "" && skills == []
      ensures !isSubmitting && closeCount == 0
    {
      name, phone, location, skills := "", "", "", [];
      isSubmitting, closeCount := false, 0;
    }

    /** `handleSkillToggle`: only the skill list changes. */
    method HandleSkillToggle(skill: string)
      modifies this
      ensures skills == ToggleSkill(old(skills), skill)
      ensures name == old(name) && phone == old(phone) && location == old(location)
      ensures isSubmitting == old(isSubmitting) && closeCount == old(closeCount)
    {
      skills := ToggleSkill(skills, skill);
    }

    /** The start of `handleSubmit`; the submit button is disabled while a submission runs. */
    method BeginSubmit()
      requires !isSubmitting
      modifies this
      ensures isSubmitting
      ensures name == old(name) && phone == old(phone) && location == old(location) && skills == old(skills)
      ensures closeCount == old(closeCount)
    {
      isSubmitting := true;
    }

    /** The end of `handleSubmit` once the simulated delay is over: submitting ends and the form closes. */
    method FinishSubmit()
      requires isSubmitting
      modifies this
      ensures !isSubmitting && closeCount == old(closeCount) + 1
      ensures name == old(name) && phone == old(phone) && location == old(location) && skills == old(skills)
    {
      isSubmitting := false;
      closeCount := closeCount + 1;
    }
  }
}
