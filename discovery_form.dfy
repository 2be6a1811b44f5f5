/**
 * The five-step discovery wizard of
 * `src/components/discovery/discovery-form.tsx`. The steps are languages,
 * experience level, interests, repository size and review. Each piece of
 * React state is a field; each handler is a method that updates it.
 */
module DiscoveryForm {
  import opened Wrappers
  import opened Domain
  import Seqs

  const TOTAL_STEPS: int := 5

  /**
   * The update every toggle handler makes. A value already selected is
   * filtered out, every occurrence of it. Any other value is appended.
   */
  function Toggle<T(==,!new)>(prev: seq<T>, x: T): seq<T> {
    if x in prev then Seqs.Filter(prev, (y: T) => y != x) else prev + [x]
  }

  /**
   * Toggling a value flips whether it is selected: it occurs once if it was
   * absent and not at all if it was present. Every other value keeps its
   * count.
   */
  lemma ToggleCounts<T(!new)>(prev: seq<T>, x: T)
    ensures forall y :: multiset(Toggle(prev, x))[y] ==
                       if y == x then (if x in prev then 0 else 1) else multiset(prev)[y]
  {
    if x in prev {
      Seqs.FilterMultiset(prev, (y: T) => y != x);
    }
  }

  /** An absent value goes to the end, after the values already selected. */
  lemma ToggleAbsentAppends<T(!new)>(prev: seq<T>, x: T)
    requires x !in prev
    ensures |Toggle(prev, x)| == |prev| + 1
    ensures Toggle(prev, x)[..|prev|] == prev && Toggle(prev, x)[|prev|] == x
  {
  }

  /** A selection without duplicates stays without duplicates. */
  lemma ToggleDistinct<T(!new)>(prev: seq<T>, x: T)
    requires Seqs.Distinct(prev)
    ensures Seqs.Distinct(Toggle(prev, x))
  {
    if x in prev {
      Seqs.FilterDistinct(prev, (y: T) => y != x);
    } else {
      var r := prev + [x];
      forall i, j | 0 <= i < j < |r| ensures r[i] != r[j] {
        if j < |prev| {
          assert r[i] == prev[i] && r[j] == prev[j];
        } else {
          assert r[i] == prev[i] && r[i] in prev;
        }
      }
    }
  }

  /** Selecting an absent value and deselecting it again gives back the original selection. */
  lemma ToggleTwiceRestores<T(!new)>(prev: seq<T>, x: T)
    requires x !in prev
    ensures Toggle(Toggle(prev, x), x) == prev
  {
    var p := (y: T) => y != x;
    assert x in prev + [x];
    Seqs.FilterAppend(prev, [x], p);
    Seqs.FilterAll(prev, p);
    assert Seqs.Filter([x], p) == [] by {
      assert [x][..0] == [];
    }
  }

  /** An entry `{ value, label }` of a fixed option list (`LANGUAGES`, `INTERESTS`, …). */
  datatype Choice = Choice(value: string, caption: string)

  /** `getLabelForValue`: the label of the first entry with this value, otherwise the value itself. */
  function GetLabelForValue(items: seq<Choice>, value: string): (r: string)
    ensures (forall i :: 0 <= i < |items| ==> items[i].value != value) ==> r == value
    ensures forall i ::
      (0 <= i < |items| && items[i].value == value && forall k :: 0 <= k < i ==> items[k].value != value) ==>
      r == items[i].caption
  {
    if items == [] then value
    else if items[0].value == value then items[0].caption
    else
      var r := GetLabelForValue(items[1..], value);
      assert forall i :: 1 <= i < |items| ==> items[i] == items[1..][i - 1];
      r
  }

  class Form {
    var currentStep: int
    var selectedLanguages: seq<string>
    var experienceLevel: Option<ExperienceLevel>
    var selectedInterests: seq<Interest>
    var selectedRepoSizes: seq<RepoSize>

    /** The initial state of the wizard: step 0, nothing selected. */
    constructor()
      ensures currentStep == 0 && experienceLevel == None
      ensures selectedLanguages == [] && selectedInterests == [] && selectedRepoSizes == []
    {
      currentStep := 0;
      selectedLanguages := [];
      experienceLevel := None;
      selectedInterests := [];
      selectedRepoSizes := [];
    }

    /** The step shown is one of the five. */
    predicate Valid()
      reads this
    {
      0 <= currentStep < TOTAL_STEPS
    }

    /**
     * Every step before the current one has its requirement met. A step's
     * selection can only be changed while that step is shown, and Continue
     * is disabled until the requirement holds.
     */
    predicate StepsCompleted()
      reads this
    {
      && (currentStep > 0 ==> |selectedLanguages| > 0)
      && (currentStep > 1 ==> experienceLevel.Some?)
      && (currentStep > 3 ==> |selectedRepoSizes| > 0)
    }

    /** `canContinue`: whether the Continue button is enabled. */
    function CanContinue(): (ok: bool)
      reads this
      ensures currentStep == 0 ==> (ok <==> |selectedLanguages| > 0)
      ensures currentStep == 1 ==> (ok <==> experienceLevel.Some?)
      ensures currentStep == 2 || currentStep == 4 ==> ok
      ensures currentStep == 3 ==> (ok <==> |selectedRepoSizes| > 0)
      ensures !Valid() ==> !ok
    {
      match currentStep
      case 0 => |selectedLanguages| > 0
      case 1 => experienceLevel.Some?
      case 2 => true
      case 3 => |selectedRepoSizes| > 0
      case 4 => true
      case _ => false
    }

    method ToggleLanguage(lang: string)
      modifies this
      ensures selectedLanguages == Toggle(old(selectedLanguages), lang)
      ensures currentStep == old(currentStep) && experienceLevel == old(experienceLevel)
      ensures selectedInterests == old(selectedInterests) && selectedRepoSizes == old(selectedRepoSizes)
      ensures old(StepsCompleted()) && currentStep == 0 ==> StepsCompleted()
    {
      selectedLanguages := Toggle(selectedLanguages, lang);
    }

    method ToggleInterest(interest: Interest)
      modifies this
      ensures selectedInterests == Toggle(old(selectedInterests), interest)
      ensures currentStep == old(currentStep) && experienceLevel == old(experienceLevel)
      ensures selectedLanguages == old(selectedLanguages) && selectedRepoSizes == old(selectedRepoSizes)
      ensures old(StepsCompleted()) ==> StepsCompleted()
    {
      selectedInterests := Toggle(selectedInterests, interest);
    }

    method ToggleRepoSize(size: RepoSize)
      modifies this
      ensures selectedRepoSizes == Toggle(old(selectedRepoSizes), size)
      ensures currentStep == old(currentStep) && experienceLevel == old(experienceLevel)
      ensures selectedLanguages == old(selectedLanguages) && selectedInterests == old(selectedInterests)
      ensures old(StepsCompleted()) && currentStep <= 3 ==> StepsCompleted()
    {
      selectedRepoSizes := Toggle(selectedRepoSizes, size);
    }

    /** Choosing an experience level on step 1. */
    method SetExperienceLevel(level: ExperienceLevel)
      modifies this
      ensures experienceLevel == Some(level)
      ensures currentStep == old(currentStep) && selectedLanguages == old(selectedLanguages)
      ensures selectedInterests == old(selectedInterests) && selectedRepoSizes == old(selectedRepoSizes)
      ensures old(StepsCompleted()) ==> StepsCompleted()
    {
      experienceLevel := Some(level);
    }

    /** `handleContinue`: the next step, except on the last one. */
    method HandleContinue()
      modifies this
      ensures currentStep == if old(currentStep) < TOTAL_STEPS - 1 then old(currentStep) + 1 else old(currentStep)
      ensures selectedLanguages == old(selectedLanguages) && experienceLevel == old(experienceLevel)
      ensures selectedInterests == old(selectedInterests) && selectedRepoSizes == old(selectedRepoSizes)
      ensures old(Valid()) ==> Valid()
      ensures old(StepsCompleted()) && old(CanContinue()) ==> StepsCompleted()
    {
      if currentStep < TOTAL_STEPS - 1 {
        currentStep := currentStep + 1;
      }
    }

    /** `handleBack`: the previous step, except on the first one. */
    method HandleBack()
      modifies this
      ensures currentStep == if old(currentStep) > 0 then old(currentStep) - 1 else old(currentStep)
      ensures selectedLanguages == old(selectedLanguages) && experienceLevel == old(experienceLevel)
      ensures selectedInterests == old(selectedInterests) && selectedRepoSizes == old(selectedRepoSizes)
      ensures old(Valid()) ==> Valid()
      ensures old(StepsCompleted()) ==> StepsCompleted()
    {
      if currentStep > 0 {
        currentStep := currentStep - 1;
      }
    }

    /** `goToStep`, the Edit links of the review step. */
    method GoToStep(step: int)
      modifies this
      ensures currentStep == step
      ensures selectedLanguages == old(selectedLanguages) && experienceLevel == old(experienceLevel)
      ensures selectedInterests == old(selectedInterests) && selectedRepoSizes == old(selectedRepoSizes)
      ensures 0 <= step < TOTAL_STEPS ==> Valid()
      ensures old(StepsCompleted()) && step <= old(currentStep) ==> StepsCompleted()
    {
      currentStep := step;
    }

    /**
     * `handleSubmit`: no query without an experience level; otherwise the
     * four selections, with no trending topics.
     */
    method HandleSubmit() returns (query: Option<DiscoveryQuery>)
      ensures query.None? <==> experienceLevel.None?
      ensures query.Some? ==> query.value == DiscoveryQuery(
        selectedLanguages, experienceLevel.value, selectedInterests, selectedRepoSizes, None)
      ensures StepsCompleted() && currentStep == TOTAL_STEPS - 1 ==>
        query.Some? && |query.value.languages| > 0 && |query.value.repoSizes| > 0
    {
      if experienceLevel.None? {
        return None;
      }
      query := Some(DiscoveryQuery(
        selectedLanguages, experienceLevel.value, selectedInterests, selectedRepoSizes, None));
    }
  }
}
