/** The analytics screen: post counts by status, a histogram of content types
    and the labels under which the histogram shows them. */
module Analytics {
  import opened Common

  /** The two columns of a `content` row that the counts read. */
  datatype ContentRow = ContentRow(status: string, contentType: string)

  datatype Stats = Stats(
    totalPosts: nat,
    publishedPosts: nat,
    scheduledPosts: nat,
    draftPosts: nat,
    avgEngagement: int,
    totalViews: int)

  const InitialStats: Stats := Stats(0, 0, 0, 0, 0, 0)

  /** One bar of the histogram: a formatted label and its count. */
  datatype TypeBar = TypeBar(name: string, count: nat)

  // ---------------------------------------------------------------------------
  // Status counts.

  /** `content.filter(c => c.status === status).length`. */
  function CountStatus(rows: seq<ContentRow>, status: string): (r: nat)
    ensures r <= |rows|
    ensures r == 0 <==> forall i :: 0 <= i < |rows| ==> rows[i].status != status
  {
    if |rows| == 0 then 0
    else (if rows[0].status == status then 1 else 0) + CountStatus(rows[1..], status)
  }

  /** The stats record of a fetch; engagement and views are the two mock
      random figures, passed in. */
  function StatsOf(rows: seq<ContentRow>, engagement: int, views: int): (s: Stats)
    ensures s.totalPosts == |rows|
    ensures s.publishedPosts == CountStatus(rows, "published")
    ensures s.scheduledPosts == CountStatus(rows, "scheduled")
    ensures s.draftPosts == CountStatus(rows, "draft")
    ensures s.publishedPosts + s.scheduledPosts + s.draftPosts <= s.totalPosts
  {
    StatusCountsBounded(rows);
    Stats(|rows|, CountStatus(rows, "published"), CountStatus(rows, "scheduled"),
          CountStatus(rows, "draft"), engagement, views)
  }

  /** A row is counted under at most one status, so the three status counts
      never exceed the total; they reach it exactly when every row has one of
      the three statuses. */
  lemma {:induction false} StatusCountsBounded(rows: seq<ContentRow>)
    ensures CountStatus(rows, "published") + CountStatus(rows, "scheduled") + CountStatus(rows, "draft") <= |rows|
    ensures (CountStatus(rows, "published") + CountStatus(rows, "scheduled") + CountStatus(rows, "draft") == |rows|)
      <==> forall i :: 0 <= i < |rows| ==> rows[i].status in ["published", "scheduled", "draft"]
  {
    if |rows| > 0 {
      StatusCountsBounded(rows[1..]);
      assert forall i :: 1 <= i < |rows| ==> rows[i] == rows[1..][i - 1];
    }
  }

  // ---------------------------------------------------------------------------
  // The type histogram.

  /** The number of rows of a content type. */
  function CountType(rows: seq<ContentRow>, t: string): nat
  {
    if |rows| == 0 then 0
    else CountType(rows[..|rows| - 1], t) + (if rows[|rows| - 1].contentType == t then 1 else 0)
  }

  predicate HasType(rows: seq<ContentRow>, t: string)
  {
    exists i :: 0 <= i < |rows| && rows[i].contentType == t
  }

  predicate NoDuplicates(s: seq<string>)
  {
    forall i, j :: 0 <= i < j < |s| ==> s[i] != s[j]
  }

  /** The keys of `typeCount` in insertion order: each type once, in the
      order of its first row. */
  function DistinctTypes(rows: seq<ContentRow>): (r: seq<string>)
    ensures NoDuplicates(r)
    ensures forall t :: t in r <==> HasType(rows, t)
  {
    if |rows| == 0 then []
    else
      var d := DistinctTypes(rows[..|rows| - 1]);
      var t := rows[|rows| - 1].contentType;
      assert forall u :: HasType(rows[..|rows| - 1], u) ==> HasType(rows, u);
      if t in d then d else d + [t]
  }

  /** A type that no row has is counted zero times. */
  lemma {:induction false} AbsentTypeCountsZero(rows: seq<ContentRow>, t: string)
    requires !HasType(rows, t)
    ensures CountType(rows, t) == 0
  {
    if |rows| > 0 {
      var p := rows[..|rows| - 1];
      assert !HasType(p, t) by {
        forall i | 0 <= i < |p| ensures p[i].contentType != t {
          assert p[i] == rows[i];
        }
      }
      AbsentTypeCountsZero(p, t);
    }
  }

  /** The sum of the counts of a list of types. */
  function TotalOf(rows: seq<ContentRow>, ts: seq<string>): nat
  {
    if |ts| == 0 then 0 else CountType(rows, ts[0]) + TotalOf(rows, ts[1..])
  }

  lemma {:induction false} TotalOfAppend(rows: seq<ContentRow>, ts: seq<string>, t: string)
    ensures TotalOf(rows, ts + [t]) == TotalOf(rows, ts) + CountType(rows, t)
  {
    if |ts| > 0 {
      assert (ts + [t])[1..] == ts[1..] + [t];
      TotalOfAppend(rows, ts[1..], t);
    }
  }

  /** Adding a row adds one to the total of any duplicate-free list that holds
      its type, and nothing to one that does not. */
  lemma {:induction false} TotalOfLastRow(rows: seq<ContentRow>, ts: seq<string>)
    requires |rows| > 0
    requires NoDuplicates(ts)
    ensures TotalOf(rows, ts) == TotalOf(rows[..|rows| - 1], ts) + (if rows[|rows| - 1].contentType in ts then 1 else 0)
  {
    if |ts| > 0 {
      assert NoDuplicates(ts[1..]) by {
        forall i, j | 0 <= i < j < |ts[1..]| ensures ts[1..][i] != ts[1..][j] {
          assert ts[1..][i] == ts[i + 1] && ts[1..][j] == ts[j + 1];
        }
      }
      TotalOfLastRow(rows, ts[1..]);
      if ts[0] == rows[|rows| - 1].contentType {
        assert ts[0] !in ts[1..] by {
          forall k | 0 <= k < |ts[1..]| ensures ts[1..][k] != ts[0] {
            assert ts[1..][k] == ts[k + 1];
          }
        }
      } else {
        assert rows[|rows| - 1].contentType in ts <==> rows[|rows| - 1].contentType in ts[1..] by {
          assert ts == [ts[0]] + ts[1..];
        }
      }
    }
  }

  /** The histogram accounts for every row exactly once. */
  lemma {:induction false} HistogramSumsToTotal(rows: seq<ContentRow>)
    ensures TotalOf(rows, DistinctTypes(rows)) == |rows|
  {
    if |rows| > 0 {
      var p := rows[..|rows| - 1];
      var t := rows[|rows| - 1].contentType;
      var d := DistinctTypes(p);
      HistogramSumsToTotal(p);
      TotalOfLastRow(rows, d);
      if t !in d {
        TotalOfAppend(rows, d, t);
        AbsentTypeCountsZero(p, t);
      }
    }
  }

  /** The `forEach` that fills `typeCount`: the keys are the row types in
      insertion order and each value is that type's row count. */
  method CountByType(rows: seq<ContentRow>) returns (typeCount: map<string, nat>, order: seq<string>)
    ensures order == DistinctTypes(rows)
    ensures forall t :: t in typeCount <==> t in order
    ensures forall t :: t in typeCount ==> typeCount[t] == CountType(rows, t)
  {
    typeCount := map[];
    order := [];
    var i := 0;
    while i < |rows|
      invariant 0 <= i <= |rows|
      invariant order == DistinctTypes(rows[..i])
      invariant forall t :: t in typeCount <==> t in order
      invariant forall t :: CountType(rows[..i], t) == (if t in typeCount then typeCount[t] else 0)
    {
      var t := rows[i].contentType;
      assert rows[..i + 1][..i] == rows[..i];
      if t !in typeCount {
        AbsentTypeCountsZero(rows[..i], t);
        order := order + [t];
      }
      typeCount := typeCount[t := (if t in typeCount then typeCount[t] else 0) + 1];
      i := i + 1;
    }
    assert rows[..i] == rows;
  }

  // ---------------------------------------------------------------------------
  // Labels: `type.replace('-', ' ').replace(/\b\w/g, l => l.toUpperCase())`.

  /** The index of the first `c` in `s`, or `|s|` when there is none. */
  function IndexOf(s: string, c: char): (r: nat)
    ensures r <= |s|
    ensures r < |s| ==> s[r] == c
    ensures forall j :: 0 <= j < r ==> s[j] != c
  {
    if |s| == 0 then 0 else if s[0] == c then 0 else 1 + IndexOf(s[1..], c)
  }

  /** `String.prototype.replace` with a string pattern: only the first
      occurrence is replaced. */
  function ReplaceFirst(s: string, a: char, b: char): (r: string)
    ensures |r| == |s|
    ensures forall j :: 0 <= j < |s| ==> r[j] == (if j == IndexOf(s, a) then b else s[j])
  {
    if |s| == 0 then []
    else if s[0] == a then [b] + s[1..]
    else [s[0]] + ReplaceFirst(s[1..], a, b)
  }

  /** The regular-expression class `\w`. */
  predicate IsWordChar(c: char)
  {
    'a' <= c <= 'z' || 'A' <= c <= 'Z' || '0' <= c <= '9' || c == '_'
  }

  /** `\b\w`: a word character not preceded by a word character. */
  predicate StartsWord(s: string, i: int)
    requires 0 <= i < |s|
  {
    IsWordChar(s[i]) && (i == 0 || !IsWordChar(s[i - 1]))
  }

  /** `replace(/\b\w/g, l => l.toUpperCase())`: every word-initial
      character is uppercased, every other one kept. */
  function CapitalizeWords(s: string): (r: string)
    ensures |r| == |s|
  {
    seq(|s|, i requires 0 <= i < |s| => if StartsWord(s, i) then UpperChar(s[i]) else s[i])
  }

  function FormatTypeLabel(t: string): string
  {
    CapitalizeWords(ReplaceFirst(t, '-', ' '))
  }

  /** The first hyphen becomes a space, later hyphens stay, every other
      character is kept except that a word-initial one is uppercased. */
  lemma FormatTypeLabelSpec(t: string)
    ensures |FormatTypeLabel(t)| == |t|
    ensures IndexOf(t, '-') < |t| ==> FormatTypeLabel(t)[IndexOf(t, '-')] == ' '
    ensures forall j :: IndexOf(t, '-') < j < |t| && t[j] == '-' ==> FormatTypeLabel(t)[j] == '-'
    ensures forall j :: 0 <= j < |t| && j != IndexOf(t, '-') && !IsWordChar(t[j]) ==> FormatTypeLabel(t)[j] == t[j]
    ensures forall j :: 0 <= j < |t| && j != IndexOf(t, '-') && IsWordChar(t[j]) && (j == 0 || j - 1 == IndexOf(t, '-') || !IsWordChar(t[j - 1])) ==>
              FormatTypeLabel(t)[j] == UpperChar(t[j])
    ensures forall j :: 0 < j < |t| && j != IndexOf(t, '-') && j - 1 != IndexOf(t, '-') && IsWordChar(t[j]) && IsWordChar(t[j - 1]) ==>
              FormatTypeLabel(t)[j] == t[j]
  {
    var u := ReplaceFirst(t, '-', ' ');
    forall j | 0 < j < |t| && j != IndexOf(t, '-') && j - 1 != IndexOf(t, '-') && IsWordChar(t[j]) && IsWordChar(t[j - 1])
      ensures FormatTypeLabel(t)[j] == t[j]
    {
      assert u[j] == t[j] && u[j - 1] == t[j - 1];
      assert !StartsWord(u, j);
    }
    forall j | 0 <= j < |t| && j != IndexOf(t, '-') && IsWordChar(t[j]) && (j == 0 || j - 1 == IndexOf(t, '-') || !IsWordChar(t[j - 1]))
      ensures FormatTypeLabel(t)[j] == UpperChar(t[j])
    {
      assert u[j] == t[j];
      assert StartsWord(u, j);
    }
  }

  /** A label without a hyphen only has its words capitalized. */
  lemma NoHyphenLabel(t: string)
    requires '-' !in t
    ensures FormatTypeLabel(t) == CapitalizeWords(t)
  {
    assert IndexOf(t, '-') == |t|;
    assert ReplaceFirst(t, '-', ' ') == t;
  }

  /** In a label with a hyphen, only the first one becomes a space. */
  lemma HyphenatedLabel(x: string, y: string)
    requires '-' !in x
    ensures FormatTypeLabel(x + "-" + y) == CapitalizeWords(x + " " + y)
  {
    var t := x + "-" + y;
    assert t[|x|] == '-';
    assert forall j :: 0 <= j < |x| ==> t[j] == x[j];
    assert IndexOf(t, '-') == |x|;
    assert ReplaceFirst(t, '-', ' ') == x + " " + y;
  }

  predicate IsWord(w: string)
  {
    |w| > 0 && forall i :: 0 <= i < |w| ==> IsWordChar(w[i])
  }

  /** A single word gets only its first character uppercased. */
  lemma CapitalizeWord(w: string)
    requires IsWord(w)
    ensures CapitalizeWords(w) == [UpperChar(w[0])] + w[1..]
  {
  }

  /** Words separated by a space are capitalized independently. */
  lemma CapitalizeAroundSpace(x: string, y: string)
    requires IsWord(x) && IsWord(y)
    ensures CapitalizeWords(x + " " + y) == CapitalizeWords(x) + " " + CapitalizeWords(y)
  {
    var t := x + " " + y;
    var l := CapitalizeWords(t);
    var r := CapitalizeWords(x) + " " + CapitalizeWords(y);
    forall i | 0 <= i < |t|
      ensures l[i] == r[i]
    {
      if i < |x| {
        assert t[i] == x[i];
        assert i > 0 ==> t[i - 1] == x[i - 1];
      } else if i > |x| + 1 {
        assert t[i] == y[i - |x| - 1] && t[i - 1] == y[i - |x| - 2];
      }
    }
    assert l == r;
  }

  /** A hyphenated pair of words: the hyphen becomes a space and both words
      get an uppercase initial. */
  lemma TwoWordLabel(x: string, y: string)
    requires IsWord(x) && IsWord(y)
    ensures FormatTypeLabel(x + "-" + y) == [UpperChar(x[0])] + x[1..] + " " + [UpperChar(y[0])] + y[1..]
  {
    assert '-' !in x by {
      assert forall i :: 0 <= i < |x| ==> IsWordChar(x[i]);
    }
    HyphenatedLabel(x, y);
    CapitalizeAroundSpace(x, y);
    CapitalizeWord(x);
    CapitalizeWord(y);
  }

  /** A single word gets an uppercase initial. */
  lemma OneWordLabel(w: string)
    requires IsWord(w)
    ensures FormatTypeLabel(w) == [UpperChar(w[0])] + w[1..]
  {
    assert '-' !in w by {
      assert forall i :: 0 <= i < |w| ==> IsWordChar(w[i]);
    }
    NoHyphenLabel(w);
    CapitalizeWord(w);
  }

  /** The label of a two-word content type. */
  lemma LeadMagnetLabel()
    ensures FormatTypeLabel("lead-magnet") == "Lead Magnet"
  {
    LeadMagnetWords();
    TwoWordLabel("lead", "magnet");
  }

  lemma LeadMagnetWords()
    ensures "lead-magnet" == "lead" + "-" + "magnet" && IsWord("lead") && IsWord("magnet")
    ensures [UpperChar('l')] + "ead" + " " + [UpperChar('m')] + "agnet" == "Lead Magnet"
  {
  }

  /** A second hyphen is kept, and the word after it is capitalized too. */
  lemma LaterHyphenLabel()
    ensures FormatTypeLabel("a-b-c") == "A B-C"
  {
    assert "a-b-c" == "a" + "-" + "b-c";
    HyphenatedLabel("a", "b-c");
  }
  // ---------------------------------------------------------------------------
  // The screen.

  /** The bars of the histogram, one per type in first-row order. */
  function TypeBars(rows: seq<ContentRow>): (bars: seq<TypeBar>)
    ensures |bars| == |DistinctTypes(rows)|
  {
    var d := DistinctTypes(rows);
    seq(|d|, i requires 0 <= i < |d| => TypeBar(FormatTypeLabel(d[i]), CountType(rows, d[i])))
  }

  /** What the `content` query returned: an error, or data that may be null. */
  datatype QueryResult = QueryFailed | QueryRows(data: Option<seq<ContentRow>>)

  /** `data || []`. */
  function RowsOf(r: QueryResult): seq<ContentRow>
    requires r.QueryRows?
  {
    if r.data.Some? then r.data.value else []
  }

  class AnalyticsPanel {
    var loading: bool
    var stats: Stats
    var contentByType: seq<TypeBar>

    constructor()
      ensures loading && stats == InitialStats && contentByType == []
    {
      loading := true;
      stats := InitialStats;
      contentByType := [];
    }

    /** `fetchAnalytics`: with no user nothing happens; otherwise `loading` is
        set for the query and cleared when it ends, and only a successful
        query replaces the stats and the histogram. `engagement` and `views`
        stand for the two random mock figures. */
    method Fetch(hasUser: bool, result: QueryResult, engagement: int, views: int) returns (loadingDuring: bool)
      modifies this
      ensures !hasUser ==> unchanged(this) && loadingDuring == loading
      ensures hasUser ==> loadingDuring && !loading
      ensures hasUser && result.QueryFailed? ==> stats == old(stats) && contentByType == old(contentByType)
      ensures hasUser && result.QueryRows? ==>
                stats == StatsOf(RowsOf(result), engagement, views) && contentByType == TypeBars(RowsOf(result))
    {
      if !hasUser {
        loadingDuring := loading;
        return;
      }
      loading := true;
      loadingDuring := loading;
      if result.QueryRows? {
        var content := RowsOf(result);
        stats := StatsOf(content, engagement, views);
        var typeCount, order := CountByType(content);
        contentByType := seq(|order|, i requires 0 <= i < |order| => TypeBar(FormatTypeLabel(order[i]), typeCount[order[i]]));
      }
      loading := false;
    }
  }
}
