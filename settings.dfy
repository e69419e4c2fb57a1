/** The settings page: the stored company profile and competitor list, shown
    read-only until edit mode, and saved as a sequence of store writes. */
module Settings {
  import opened Common

  datatype CompanyProfile = CompanyProfile(
    linkedinUrl: string,
    websiteUrl: string,
    companyDescription: string,
    mainMessage: string,
    icpDescription: string,
    industry: string,
    companySize: string)

  /** A company row; `id` is absent until the row comes from the store. */
  datatype Company = Company(id: Option<string>, profile: CompanyProfile)

  /** A competitor row; `id` is absent for an entry added on this page. */
  datatype Competitor = Competitor(id: Option<string>, name: string, linkedinUrl: string, websiteUrl: string)

  /** `originalData`: what the page last loaded or saved. */
  datatype Snapshot = Snapshot(company: Company, competitors: seq<Competitor>)

  datatype CompanyField = CompanyLinkedin | CompanyWebsite | CompanyDescription | MainMessage | IcpDescription | Industry | CompanySize

  datatype CompetitorField = CompetitorName | CompetitorLinkedin | CompetitorWebsite

  /** One store call issued by a save. */
  datatype Write =
    | UpdateCompany(companyId: Option<string>, profile: CompanyProfile)
    | DeleteCompetitors(ids: seq<string>)
    | UpdateCompetitor(id: string, name: string, linkedinUrl: string, websiteUrl: string)
    | InsertCompetitor(companyId: Option<string>, name: string, linkedinUrl: string, websiteUrl: string)

  const BlankProfile: CompanyProfile := CompanyProfile("", "", "", "", "", "", "")
  const BlankCompany: Company := Company(None, BlankProfile)
  const BlankCompetitor: Competitor := Competitor(None, "", "", "")

  // ---------------------------------------------------------------------------
  // The competitor diff

  /** The id as `filter(Boolean)` sees it: a missing id reads as "". */
  function IdOf(c: Competitor): string
  {
    if c.id.Some? then c.id.value else ""
  }

  predicate HasId(c: Competitor)
  {
    IdOf(c) != ""
  }

  predicate NonEmpty(s: string)
  {
    s != ""
  }

  /** `list.map(c => c.id).filter(Boolean)`. */
  function Ids(cs: seq<Competitor>): seq<string>
  {
    Filter(seq(|cs|, i requires 0 <= i < |cs| => IdOf(cs[i])), NonEmpty)
  }

  /** The ids that appear in a list are exactly its non-empty ids. */
  lemma IdsSpec(cs: seq<Competitor>)
    ensures forall x :: x in Ids(cs) ==> x != "" && exists i :: 0 <= i < |cs| && IdOf(cs[i]) == x
    ensures forall i :: 0 <= i < |cs| && HasId(cs[i]) ==> IdOf(cs[i]) in Ids(cs)
  {
    var all := seq(|cs|, i requires 0 <= i < |cs| => IdOf(cs[i]));
    FilterKeeps(all, NonEmpty);
    forall x | x in Ids(cs) ensures x != "" && exists i :: 0 <= i < |cs| && IdOf(cs[i]) == x {
      var i :| 0 <= i < |all| && all[i] == x;
    }
    forall i | 0 <= i < |cs| && HasId(cs[i]) ensures IdOf(cs[i]) in Ids(cs) {
      assert all[i] == IdOf(cs[i]);
    }
  }

  function NotIn(ids: seq<string>): string -> bool
  {
    x => x !in ids
  }

  /** `toDelete`: the original ids no longer present. */
  function DeleteSet(original: seq<Competitor>, current: seq<Competitor>): seq<string>
  {
    Filter(Ids(original), NotIn(Ids(current)))
  }

  /** An id is deleted exactly when an original row had it and no current
      row has it; rows without an id neither cause nor prevent a delete. */
  lemma DeleteSetSpec(original: seq<Competitor>, current: seq<Competitor>)
    ensures forall x :: x in DeleteSet(original, current) ==>
      x != "" && (exists i :: 0 <= i < |original| && IdOf(original[i]) == x)
      && (forall j :: 0 <= j < |current| ==> IdOf(current[j]) != x)
    ensures forall i :: 0 <= i < |original| && HasId(original[i])
                        && (forall j :: 0 <= j < |current| ==> IdOf(current[j]) != IdOf(original[i]))
                        ==> IdOf(original[i]) in DeleteSet(original, current)
  {
    IdsSpec(original);
    IdsSpec(current);
    FilterKeeps(Ids(original), NotIn(Ids(current)));
  }

  /** Keeping every row means deleting nothing. */
  lemma NothingDeletedWhenAllKept(cs: seq<Competitor>)
    ensures DeleteSet(cs, cs) == []
  {
    forall i | 0 <= i < |Ids(cs)| ensures !NotIn(Ids(cs))(Ids(cs)[i]) {
      assert Ids(cs)[i] in Ids(cs);
    }
    FilterKeeps(Ids(cs), NotIn(Ids(cs)));
  }

  /** The write for one current row: update by id, or insert under the company. */
  function RowWrite(c: Competitor, companyId: Option<string>): (w: Write)
    ensures w.UpdateCompetitor? <==> HasId(c)
    ensures w.UpdateCompetitor? ==> w == UpdateCompetitor(IdOf(c), c.name, c.linkedinUrl, c.websiteUrl)
    ensures w.InsertCompetitor? ==> w == InsertCompetitor(companyId, c.name, c.linkedinUrl, c.websiteUrl)
  {
    if HasId(c) then UpdateCompetitor(IdOf(c), c.name, c.linkedinUrl, c.websiteUrl)
    else InsertCompetitor(companyId, c.name, c.linkedinUrl, c.websiteUrl)
  }

  /** The writes a save issues when every call succeeds. */
  function SavePlan(original: seq<Competitor>, company: Company, current: seq<Competitor>): seq<Write>
  {
    var del := DeleteSet(original, current);
    [UpdateCompany(company.id, company.profile)]
    + (if |del| > 0 then [DeleteCompetitors(del)] else [])
    + seq(|current|, i requires 0 <= i < |current| => RowWrite(current[i], company.id))
  }

  /** The plan: the company update first, then one delete of the whole delete
      set if it is non-empty, then exactly one write per current row, in
      list order. */
  lemma SavePlanShape(original: seq<Competitor>, company: Company, current: seq<Competitor>)
    ensures var plan := SavePlan(original, company, current);
      var del := DeleteSet(original, current);
      var offset := if |del| > 0 then 2 else 1;
      |plan| == offset + |current|
      && plan[0] == UpdateCompany(company.id, company.profile)
      && (|del| > 0 ==> plan[1] == DeleteCompetitors(del))
      && (forall k :: 0 <= k < |plan| && plan[k].DeleteCompetitors? ==> k == 1 && |del| > 0)
      && (forall i :: 0 <= i < |current| ==> plan[offset + i] == RowWrite(current[i], company.id))
  {
  }

  /** Saving twice without reloading: the snapshot a successful save keeps
      holds the rows as they were, so rows added on the page still have no
      id, and the next save inserts them again with nothing deleted. */
  lemma ResaveInsertsNewRowsAgain(company: Company, current: seq<Competitor>, i: int)
    requires 0 <= i < |current| && !HasId(current[i])
    ensures var c := current[i];
      SavePlan(current, company, current)[1 + i] == InsertCompetitor(company.id, c.name, c.linkedinUrl, c.websiteUrl)
  {
    NothingDeletedWhenAllKept(current);
  }

  // ---------------------------------------------------------------------------
  // Stopping at the first failed write

  /** The outcome of the `k`-th write; writes beyond the list succeed. */
  function OutcomeAt(outcomes: seq<Outcome>, k: int): Outcome
  {
    if 0 <= k < |outcomes| then outcomes[k] else Ok
  }

  predicate SucceededUpTo(outcomes: seq<Outcome>, n: int)
  {
    forall k :: 0 <= k < n ==> OutcomeAt(outcomes, k).Ok?
  }

  /** The writes issued follow the plan and stop right after the first
      failure: all but the last succeeded, and the last failed unless the
      whole plan went through. */
  predicate StopsAtFirstFailure(plan: seq<Write>, outcomes: seq<Outcome>, writes: seq<Write>)
  {
    1 <= |writes| <= |plan| && writes == plan[..|writes|]
    && SucceededUpTo(outcomes, |writes| - 1)
    && (OutcomeAt(outcomes, |writes| - 1).Ok? ==> |writes| == |plan|)
  }

  /** The index of the first failed write among the first `n`, or `n`. */
  function FirstFailure(outcomes: seq<Outcome>, k: nat, n: nat): (r: nat)
    requires k <= n
    ensures k <= r <= n
    ensures forall j :: k <= j < r ==> OutcomeAt(outcomes, j).Ok?
    ensures r < n ==> OutcomeAt(outcomes, r).Err?
    decreases n - k
  {
    if k == n then n
    else if OutcomeAt(outcomes, k).Err? then k
    else FirstFailure(outcomes, k + 1, n)
  }

  /** The plan and the outcomes determine the issued writes: the plan up to
      and including the first failed write, or all of it. */
  lemma IssuedWritesDetermined(plan: seq<Write>, outcomes: seq<Outcome>, writes: seq<Write>)
    requires StopsAtFirstFailure(plan, outcomes, writes)
    ensures var f := FirstFailure(outcomes, 0, |plan|);
      writes == if f < |plan| then plan[..f + 1] else plan
    ensures SucceededUpTo(outcomes, |plan|) <==> FirstFailure(outcomes, 0, |plan|) == |plan|
  {
    var f := FirstFailure(outcomes, 0, |plan|);
    var m := |writes|;
    assert OutcomeAt(outcomes, m - 1).Ok? || OutcomeAt(outcomes, m - 1).Err?;
    assert f >= m - 1;
  }

  function UpdateProfile(p: CompanyProfile, field: CompanyField, value: string): CompanyProfile
  {
    match field
    case CompanyLinkedin => p.(linkedinUrl := value)
    case CompanyWebsite => p.(websiteUrl := value)
    case CompanyDescription => p.(companyDescription := value)
    case MainMessage => p.(mainMessage := value)
    case IcpDescription => p.(icpDescription := value)
    case Industry => p.(industry := value)
    case CompanySize => p.(companySize := value)
  }

  function UpdateField(c: Competitor, field: CompetitorField, value: string): (r: Competitor)
    ensures r.id == c.id
  {
    match field
    case CompetitorName => c.(name := value)
    case CompetitorLinkedin => c.(linkedinUrl := value)
    case CompetitorWebsite => c.(websiteUrl := value)
  }

  /** `updateCompetitor`: the row at `index` gets the field, the others stay. */
  function UpdateAt(cs: seq<Competitor>, index: int, field: CompetitorField, value: string): (r: seq<Competitor>)
    ensures |r| == |cs|
    ensures forall i :: 0 <= i < |r| ==> r[i] == (if i == index then UpdateField(cs[i], field, value) else cs[i])
  {
    seq(|cs|, i requires 0 <= i < |cs| => if i == index then UpdateField(cs[i], field, value) else cs[i])
  }

  /** The `await`s of `handleSave` in order: each write is issued after the
      previous one succeeded, and the first failure throws out of the rest. */
  method IssueUntilFailure(plan: seq<Write>, outcomes: seq<Outcome>) returns (writes: seq<Write>)
    requires |plan| >= 1
    ensures StopsAtFirstFailure(plan, outcomes, writes)
  {
    writes := [plan[0]];
    var failed := OutcomeAt(outcomes, 0).Err?;
    while |writes| < |plan| && !failed
      invariant 1 <= |writes| <= |plan| && writes == plan[..|writes|]
      invariant SucceededUpTo(outcomes, |writes| - 1)
      invariant failed <==> OutcomeAt(outcomes, |writes| - 1).Err?
      decreases |plan| - |writes|
    {
      writes := writes + [plan[|writes|]];
      failed := OutcomeAt(outcomes, |writes| - 1).Err?;
    }
  }

  const SavedNotice: Notice := Notice("Success!", "Settings saved successfully.", false)

  class SettingsScreen {
    var isEditMode: bool
    var loading: bool
    var saving: bool
    var companyData: Company
    var competitors: seq<Competitor>
    var originalData: Snapshot

    constructor()
      ensures !isEditMode && loading && !saving
      ensures companyData == BlankCompany && competitors == [] && originalData == Snapshot(BlankCompany, [])
    {
      isEditMode := false;
      loading := true;
      saving := false;
      companyData := BlankCompany;
      competitors := [];
      originalData := Snapshot(BlankCompany, []);
    }

    /** `fetchSettingsData`, with the store's answers as inputs. */
    method Load(hasUser: bool, company: Option<Company>, rows: Option<seq<Competitor>>)
      modifies this
      ensures !loading && isEditMode == old(isEditMode) && saving == old(saving)
      ensures !(hasUser && company.Some?) ==>
        companyData == old(companyData) && competitors == old(competitors) && originalData == old(originalData)
      ensures hasUser && company.Some? ==>
        companyData == company.value && originalData.company == company.value
        && (rows.Some? ==> competitors == rows.value && originalData.competitors == rows.value)
        && (rows.None? ==> competitors == old(competitors) && originalData.competitors == old(originalData.competitors))
    {
      if hasUser && company.Some? {
        companyData := company.value;
        originalData := originalData.(company := company.value);
        if rows.Some? {
          competitors := rows.value;
          originalData := originalData.(competitors := rows.value);
        }
      }
      loading := false;
    }

    /** Edit/Cancel: cancelling restores the snapshot; the mode always flips. */
    method EditToggle()
      modifies this`isEditMode, this`companyData, this`competitors
      ensures isEditMode == !old(isEditMode)
      ensures old(isEditMode) ==> companyData == originalData.company && competitors == originalData.competitors
      ensures !old(isEditMode) ==> companyData == old(companyData) && competitors == old(competitors)
    {
      if isEditMode {
        companyData := originalData.company;
        competitors := originalData.competitors;
      }
      isEditMode := !isEditMode;
    }

    method EditCompany(field: CompanyField, value: string)
      modifies this`companyData
      ensures companyData == old(companyData).(profile := UpdateProfile(old(companyData).profile, field, value))
    {
      companyData := companyData.(profile := UpdateProfile(companyData.profile, field, value));
    }

    method AddCompetitor()
      modifies this`competitors
      ensures competitors == old(competitors) + [BlankCompetitor]
    {
      competitors := competitors + [BlankCompetitor];
    }

    method RemoveCompetitor(index: int)
      modifies this`competitors
      ensures 0 <= index < old(|competitors|) ==> competitors == old(competitors[..index] + competitors[index + 1..])
      ensures !(0 <= index < old(|competitors|)) ==> competitors == old(competitors)
    {
      WithoutIsRemoval(competitors, index);
      competitors := Without(competitors, index);
    }

    method UpdateCompetitor(index: int, field: CompetitorField, value: string)
      modifies this`competitors
      ensures competitors == UpdateAt(old(competitors), index, field, value)
    {
      competitors := UpdateAt(competitors, index, field, value);
    }

    /** `handleSave`, with whether a user is signed in and the outcome of each
        write, in issue order, as inputs. */
    method Save(hasUser: bool, outcomes: seq<Outcome>) returns (writes: seq<Write>, notice: Option<Notice>)
      modifies this`saving, this`originalData, this`isEditMode
      ensures !saving
      ensures !hasUser ==>
        writes == [] && notice.None? && originalData == old(originalData) && isEditMode == old(isEditMode)
      ensures hasUser ==>
        var plan := SavePlan(old(originalData.competitors), companyData, competitors);
        StopsAtFirstFailure(plan, outcomes, writes)
        && (SucceededUpTo(outcomes, |plan|) ==>
              originalData == Snapshot(companyData, competitors) && !isEditMode && notice == Some(SavedNotice))
        && (!SucceededUpTo(outcomes, |plan|) ==>
              originalData == old(originalData) && isEditMode == old(isEditMode)
              && notice == Some(FailureNotice("Error", OutcomeAt(outcomes, |writes| - 1), "Failed to save settings.")))
    {
      saving := true;
      if !hasUser {
        saving := false;
        return [], None;
      }
      var plan := SavePlan(originalData.competitors, companyData, competitors);
      writes := IssueUntilFailure(plan, outcomes);
      var failed := OutcomeAt(outcomes, |writes| - 1).Err?;
      if !failed {
        originalData := Snapshot(companyData, competitors);
        isEditMode := false;
        notice := Some(SavedNotice);
      } else {
        notice := Some(FailureNotice("Error", OutcomeAt(outcomes, |writes| - 1), "Failed to save settings."));
      }
      saving := false;
    }
  }
}
