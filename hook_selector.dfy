/** The hook picker: a list of candidate opening lines with a cursor that
    moves by clicking a card or with previous/next buttons, and a button that
    hands the chosen index to the post editor. */
module HookSelector {
  import opened Common

  datatype Direction = Prev | Next

  /** One card: its index, its shortened text and the hook unchanged. */
  datatype HookView = HookView(id: int, text: string, fullText: string)

  const ShortLength: int := 80

  /** A paragraph break, `"\n\n"`, starts at index `i` of `s`. */
  predicate BreakAt(s: string, i: int)
  {
    0 <= i && i + 1 < |s| && s[i] == '\n' && s[i + 1] == '\n'
  }

  /** `s.split('\n\n')[0]`: everything before the first paragraph break. */
  function FirstParagraph(s: string): (r: string)
    ensures IsPrefix(r, s)
    ensures forall i :: 0 <= i < |r| ==> !BreakAt(s, i)
    ensures |r| < |s| ==> BreakAt(s, |r|)
    decreases |s|
  {
    if |s| < 2 then s
    else if s[0] == '\n' && s[1] == '\n' then ""
    else
      var rest := FirstParagraph(s[1..]);
      assert forall i :: 1 <= i <= |rest| ==> (BreakAt(s, i) <==> BreakAt(s[1..], i - 1));
      [s[0]] + rest
  }

  /** `s.slice(0, n)` for `n >= 0`. */
  function Take(s: string, n: nat): string
  {
    if |s| <= n then s else s[..n]
  }

  /** The card text: the first paragraph cut to 80 characters, followed by
      "..." exactly when the whole hook is longer than 80. */
  function ShortText(hook: string): string
  {
    Take(FirstParagraph(hook), ShortLength) + (if |hook| > ShortLength then "..." else "")
  }

  /** What the card text is: a prefix of the hook that stops before any
      paragraph break and holds at most 80 characters, then the ellipsis iff
      the hook is long; a short single-paragraph hook is shown unchanged. */
  lemma ShortTextShape(hook: string)
    ensures var body := if |hook| > ShortLength then ShortText(hook)[..|ShortText(hook)| - 3] else ShortText(hook);
            IsPrefix(body, hook) && |body| <= ShortLength
            && (forall i :: 0 <= i < |body| ==> !BreakAt(hook, i))
            && (|hook| > ShortLength ==> ShortText(hook)[|body|..] == "...")
    ensures |hook| <= ShortLength && (forall i :: 0 <= i < |hook| ==> !BreakAt(hook, i)) ==> ShortText(hook) == hook
  {
    var p := FirstParagraph(hook);
    if |hook| <= ShortLength && (forall i :: 0 <= i < |hook| ==> !BreakAt(hook, i)) {
      assert !BreakAt(hook, |p|);
      assert |p| == |hook|;
    }
  }

  /** `hooksData`: one card per hook, in order. */
  function HooksData(hooks: seq<string>): (r: seq<HookView>)
    ensures |r| == |hooks|
    ensures forall i :: 0 <= i < |r| ==> r[i].id == i && r[i].fullText == hooks[i] && r[i].text == ShortText(hooks[i])
  {
    seq(|hooks|, i requires 0 <= i < |hooks| => HookView(i, ShortText(hooks[i]), hooks[i]))
  }

  /** Where `handleNavigate` moves the cursor. */
  function Step(selected: int, count: int, dir: Direction): int
  {
    match dir
    case Prev => if selected > 0 then selected - 1 else selected
    case Next => if selected < count - 1 then selected + 1 else selected
  }

  /** Navigation never leaves the hooks: from a hook it reaches a hook, from
      no selection it reaches a hook or stays put, and at either end it does
      not wrap around. */
  lemma StepStaysInRange(selected: int, count: int, dir: Direction)
    ensures -1 <= selected < count ==> -1 <= Step(selected, count, dir) < count
    ensures 0 <= selected < count ==> 0 <= Step(selected, count, dir) < count
    ensures count > 0 ==> Step(-1, count, Next) == 0
    ensures Step(-1, count, Prev) == -1
    ensures count > 0 ==> Step(0, count, Prev) == 0 && Step(count - 1, count, Next) == count - 1
  {
  }

  predicate PrevDisabled(selected: int)
  {
    selected <= 0
  }

  predicate UseDisabled(selected: int)
  {
    selected < 0
  }

  predicate NextDisabled(selected: int, count: int)
  {
    selected >= count - 1
  }

  /** Each button is disabled exactly when pressing it would change nothing. */
  lemma DisabledIffNoEffect(selected: int, count: int)
    ensures PrevDisabled(selected) <==> Step(selected, count, Prev) == selected
    ensures NextDisabled(selected, count) <==> Step(selected, count, Next) == selected
    ensures UseDisabled(selected) <==> !(selected >= 0)
  {
  }

  /** The picker's state. The hook list is fixed for the picker's lifetime:
      the editor hides the picker whenever it replaces the list, so a new
      list always meets a fresh picker. */
  class HookPicker {
    const hooks: seq<string>
    var selectedIndex: int
    var previewIndex: int

    /** The cursor is -1 or an index of a hook, and the preview follows it. */
    ghost predicate Valid()
      reads this
    {
      -1 <= selectedIndex < |hooks| && previewIndex == selectedIndex
    }

    constructor(hooks: seq<string>)
      ensures this.hooks == hooks && selectedIndex == -1 && previewIndex == -1
      ensures Valid()
    {
      this.hooks := hooks;
      selectedIndex := -1;
      previewIndex := -1;
    }

    /** Clicking the card at `index`. */
    method Preview(index: int)
      requires Valid() && 0 <= index < |hooks|
      modifies this
      ensures Valid() && selectedIndex == index
    {
      previewIndex := index;
      selectedIndex := index;
    }

    method Navigate(dir: Direction)
      requires Valid()
      modifies this
      ensures Valid() && selectedIndex == Step(old(selectedIndex), |hooks|, dir)
    {
      if dir == Prev && selectedIndex > 0 {
        selectedIndex := selectedIndex - 1;
        previewIndex := selectedIndex;
      } else if dir == Next && selectedIndex < |hooks| - 1 {
        selectedIndex := selectedIndex + 1;
        previewIndex := selectedIndex;
      }
    }

    /** "Use This Hook": the index handed to the editor, if the cursor is on a hook. */
    method UseHook() returns (chosen: Option<int>)
      requires Valid()
      ensures chosen.Some? <==> selectedIndex >= 0
      ensures chosen.Some? ==> chosen.value == selectedIndex && 0 <= chosen.value < |hooks|
    {
      if selectedIndex >= 0 {
        chosen := Some(selectedIndex);
      } else {
        chosen := None;
      }
    }
  }
}
