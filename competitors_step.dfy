/** The competitors step of onboarding: an editable list of 1 to 10
    competitor URLs, each change pushed to the wizard's form. */
module CompetitorsStep {
  import opened Common

  const MaxCompetitors: int := 10
  const DefaultCompetitors: seq<string> := ["", "", ""]

  /** `formData.competitors || ["", "", ""]`: any list the form holds, even an
      empty one, is taken as it is. */
  function InitialCompetitors(fromForm: Option<seq<string>>): seq<string>
  {
    if fromForm.Some? then fromForm.value else DefaultCompetitors
  }

  predicate InBounds(list: seq<string>)
  {
    1 <= |list| <= MaxCompetitors
  }

  class CompetitorList {
    var competitors: seq<string>

    constructor(fromForm: Option<seq<string>>)
      ensures competitors == InitialCompetitors(fromForm)
    {
      competitors := InitialCompetitors(fromForm);
    }

    /** The remove buttons are shown only while there is more than one entry. */
    predicate CanRemove()
      reads this
    {
      |competitors| > 1
    }

    /** The add button is shown only while there are fewer than ten entries. */
    predicate CanAdd()
      reads this
    {
      |competitors| < MaxCompetitors
    }

    /** Add: appends a blank entry below the cap; `pushed` is the list handed
        to the form, if any. */
    method Add() returns (pushed: Option<seq<string>>)
      modifies this
      ensures old(|competitors|) < MaxCompetitors ==> competitors == old(competitors) + [""] && pushed == Some(competitors)
      ensures old(|competitors|) >= MaxCompetitors ==> competitors == old(competitors) && pushed.None?
      ensures old(InBounds(competitors)) ==> InBounds(competitors)
    {
      if |competitors| < MaxCompetitors {
        competitors := competitors + [""];
        pushed := Some(competitors);
      } else {
        pushed := None;
      }
    }

    /** Remove: drops exactly the entry at `index`, unless it is the only one. */
    method Remove(index: int) returns (pushed: Option<seq<string>>)
      modifies this
      ensures old(|competitors|) > 1 && 0 <= index < old(|competitors|) ==>
        competitors == old(competitors[..index] + competitors[index + 1..]) && pushed == Some(competitors)
      ensures old(|competitors|) > 1 && !(0 <= index < old(|competitors|)) ==>
        competitors == old(competitors) && pushed == Some(competitors)
      ensures old(|competitors|) <= 1 ==> competitors == old(competitors) && pushed.None?
      ensures old(InBounds(competitors)) ==> InBounds(competitors)
    {
      if |competitors| > 1 {
        WithoutIsRemoval(competitors, index);
        competitors := Without(competitors, index);
        pushed := Some(competitors);
      } else {
        pushed := None;
      }
    }

    /** Update: the entry at `index` (an entry on screen) takes the typed value. */
    method Update(index: int, value: string) returns (pushed: seq<string>)
      requires 0 <= index < |competitors|
      modifies this
      ensures |competitors| == old(|competitors|) && competitors[index] == value
      ensures forall k :: 0 <= k < |competitors| && k != index ==> competitors[k] == old(competitors[k])
      ensures pushed == competitors
      ensures old(InBounds(competitors)) ==> InBounds(competitors)
    {
      competitors := competitors[index := value];
      pushed := competitors;
    }
  }
}
