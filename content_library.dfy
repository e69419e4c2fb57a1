/** The content library: a search box and two filters over the user's posts,
    and the badge colours of each post's status and type. */
module ContentLibrary {
  import opened Common

  /** The fields of a library item that the search, filters and badges read. */
  datatype LibraryItem = LibraryItem(id: int, title: string, itemType: string, status: string, preview: string)

  const AllFilter: string := "all"

  /** The query occurs, ignoring case, in the title or the preview. */
  predicate MatchesSearch(item: LibraryItem, query: string)
  {
    Contains(Lower(item.title), Lower(query)) || Contains(Lower(item.preview), Lower(query))
  }

  predicate MatchesType(item: LibraryItem, filterType: string)
  {
    filterType == AllFilter || item.itemType == filterType
  }

  predicate MatchesStatus(item: LibraryItem, filterStatus: string)
  {
    filterStatus == AllFilter || item.status == filterStatus
  }

  predicate Keeps(item: LibraryItem, query: string, filterType: string, filterStatus: string)
  {
    MatchesSearch(item, query) && MatchesType(item, filterType) && MatchesStatus(item, filterStatus)
  }

  function KeepTest(query: string, filterType: string, filterStatus: string): LibraryItem -> bool
  {
    item => Keeps(item, query, filterType, filterStatus)
  }

  /** `filteredContent`. */
  function Filtered(items: seq<LibraryItem>, query: string, filterType: string, filterStatus: string): seq<LibraryItem>
  {
    Filter(items, KeepTest(query, filterType, filterStatus))
  }

  /** An item is listed iff it matches the search and both filters; the list
      keeps the library's order and adds nothing. */
  lemma FilteredSpec(items: seq<LibraryItem>, query: string, filterType: string, filterStatus: string)
    ensures forall x :: x in Filtered(items, query, filterType, filterStatus) ==>
      x in items && Keeps(x, query, filterType, filterStatus)
    ensures forall x :: x in items && Keeps(x, query, filterType, filterStatus) ==>
      x in Filtered(items, query, filterType, filterStatus)
    ensures IsSubsequence(Filtered(items, query, filterType, filterStatus), items)
  {
    FilterKeeps(items, KeepTest(query, filterType, filterStatus));
  }

  /** An empty search with both filters on "all" lists the whole library. */
  lemma NoFilterKeepsAll(items: seq<LibraryItem>)
    ensures Filtered(items, "", AllFilter, AllFilter) == items
  {
    forall i | 0 <= i < |items| ensures KeepTest("", AllFilter, AllFilter)(items[i]) {
      assert Lower("") == "";
      assert IsPrefix("", Lower(items[i].title));
    }
    FilterKeeps(items, KeepTest("", AllFilter, AllFilter));
  }

  /** The search ignores case: a title containing the query in any casing of
      its ASCII letters is found. */
  lemma SearchIgnoresCase(item: LibraryItem, query: string)
    ensures MatchesSearch(item, query) <==> MatchesSearch(item, Lower(query))
  {
    LowerIdempotent(query);
  }

  lemma LowerIdempotent(s: string)
    ensures Lower(Lower(s)) == Lower(s)
  {
  }

  /** The "no content" message is shown exactly when nothing matches. */
  predicate ShowsEmptyState(items: seq<LibraryItem>, query: string, filterType: string, filterStatus: string)
  {
    |Filtered(items, query, filterType, filterStatus)| == 0
  }

  lemma EmptyStateIffNoMatch(items: seq<LibraryItem>, query: string, filterType: string, filterStatus: string)
    ensures ShowsEmptyState(items, query, filterType, filterStatus) <==>
      forall i :: 0 <= i < |items| ==> !Keeps(items[i], query, filterType, filterStatus)
  {
    FilteredSpec(items, query, filterType, filterStatus);
    FilterKeeps(items, KeepTest(query, filterType, filterStatus));
    var r := Filtered(items, query, filterType, filterStatus);
    if |r| > 0 {
      assert r[0] in r;
    }
    if exists i :: 0 <= i < |items| && Keeps(items[i], query, filterType, filterStatus) {
      var i :| 0 <= i < |items| && Keeps(items[i], query, filterType, filterStatus);
      assert items[i] in r;
    }
  }

  const DefaultBadge: string := "bg-white/20 text-white"

  function StatusColor(status: string): (c: string)
    ensures status == "Published" ==> c == "bg-success/20 text-success"
    ensures status == "Scheduled" ==> c == "bg-warning/20 text-warning"
    ensures status !in ["Published", "Scheduled"] ==> c == DefaultBadge
  {
    match status
    case "Published" => "bg-success/20 text-success"
    case "Scheduled" => "bg-warning/20 text-warning"
    case "Draft" => DefaultBadge
    case _ => DefaultBadge
  }

  function TypeColor(itemType: string): (c: string)
    ensures itemType == "Educational Post" ==> c == "bg-accent-purple/20 text-accent-purple"
    ensures itemType == "Engagement Post" ==> c == "bg-accent-blue/20 text-accent-blue"
    ensures itemType == "Lead Magnet" ==> c == "bg-accent-cyan/20 text-accent-cyan"
    ensures itemType == "Company Update" ==> c == "bg-success/20 text-success"
    ensures itemType !in ["Educational Post", "Engagement Post", "Lead Magnet", "Company Update"] ==> c == DefaultBadge
  {
    match itemType
    case "Educational Post" => "bg-accent-purple/20 text-accent-purple"
    case "Engagement Post" => "bg-accent-blue/20 text-accent-blue"
    case "Lead Magnet" => "bg-accent-cyan/20 text-accent-cyan"
    case "Company Update" => "bg-success/20 text-success"
    case _ => DefaultBadge
  }

  /** Drafts and unknown statuses share the neutral badge, and a company
      update is coloured like a published post. */
  lemma BadgeCoincidences(status: string)
    ensures StatusColor("Draft") == StatusColor(status) <==> status !in ["Published", "Scheduled"]
    ensures TypeColor("Company Update") == StatusColor("Published")
  {
  }
}
