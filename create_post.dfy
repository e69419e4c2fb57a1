/** The post editor: a topic and settings produce a body and four candidate
    hooks; the user picks a hook in the picker, can regenerate parts, edit the
    body, and save or schedule the composed post. Each async handler is one
    method that runs to completion; the state the user sees while the
    handler awaits is returned as `during`. */
module CreatePost {
  import opened Common
  import opened MockContent
  import opened RegenerationToolbar
  import opened ImageSettings

  /** The settings form. */
  datatype PostForm = PostForm(topic: string, contentType: string, tone: string, length: string, includeCTA: bool)

  /** A single form setting, as the quick-settings menu reports it. */
  datatype Setting = Tone(tone: string) | Length(length: string) | IncludeCta(flag: bool)

  /** The part of the editor's state that generation and regeneration touch. */
  datatype Draft = Draft(
    isGenerating: bool,
    showHookSelector: bool,
    body: string,
    hooks: seq<string>,
    selectedHookIndex: int,
    isRegenerating: Regenerating)

  const DefaultContentType: string := "engagement"
  const DefaultImageStyle: string := "realistic_photo"

  /** `hooks[i]` in a template literal: an index with no hook reads as "undefined". */
  function HookAt(hooks: seq<string>, i: int): string
  {
    if 0 <= i < |hooks| then hooks[i] else "undefined"
  }

  /** `getFinalContent`: the selected hook, a blank line, then the body. */
  function FinalContent(hooks: seq<string>, selected: int, body: string): string
  {
    if selected >= 0 && |hooks| > 0 then HookAt(hooks, selected) + "\n\n" + body else body
  }

  /** The composed post splits back into its parts: with a hook selected it is
      exactly that hook, a blank line and the body; with none it is the body. */
  lemma FinalContentDecomposes(hooks: seq<string>, selected: int, body: string)
    ensures var r := FinalContent(hooks, selected, body);
      0 <= selected < |hooks| ==>
        |r| == |hooks[selected]| + 2 + |body|
        && r[..|hooks[selected]|] == hooks[selected]
        && r[|hooks[selected]|..|hooks[selected]| + 2] == "\n\n"
        && r[|hooks[selected]| + 2..] == body
    ensures selected < 0 ==> FinalContent(hooks, selected, body) == body
  {
    if 0 <= selected < |hooks| {
      var h := hooks[selected];
      var r := h + "\n\n" + body;
      assert r[..|h|] == h;
      assert r[|h|..|h| + 2] == "\n\n";
      assert r[|h| + 2..] == body;
    }
  }

  /** The body `handleSaveEdit` stores for the edited text. */
  function SaveEditBody(hooks: seq<string>, selected: int, edited: string): string
  {
    if selected >= 0 then HookAt(hooks, selected) + "\n\n" + edited else edited
  }

  /** With a hook selected, saving an edit stores the hook in the body, and the
      composed post then starts with the hook twice; with no hook selected
      the composed post is the edited text. */
  lemma SaveEditRepeatsHook(hooks: seq<string>, selected: int, edited: string)
    ensures 0 <= selected < |hooks| ==>
      FinalContent(hooks, selected, SaveEditBody(hooks, selected, edited))
        == hooks[selected] + "\n\n" + hooks[selected] + "\n\n" + edited
    ensures 0 <= selected < |hooks| ==>
      FinalContent(hooks, selected, SaveEditBody(hooks, selected, edited))
        != FinalContent(hooks, selected, edited)
    ensures selected < 0 ==> FinalContent(hooks, selected, SaveEditBody(hooks, selected, edited)) == edited
  {
    if 0 <= selected < |hooks| {
      var h := hooks[selected];
      assert |h + "\n\n" + h + "\n\n" + edited| == |h + "\n\n" + edited| + |h| + 2;
    }
  }

  /** `imageData?.style || 'realistic_photo'`. */
  function StyleOrDefault(img: Option<ImageData>): (r: string)
    ensures r != ""
    ensures img.Some? && img.value.style.Some? && img.value.style.value != "" ==> r == img.value.style.value
  {
    if img.Some? && img.value.style.Some? && img.value.style.value != "" then img.value.style.value
    else DefaultImageStyle
  }

  /** The `type` query parameter selects the initial content type when present. */
  function InitialContentType(typeParam: Option<string>): string
  {
    if typeParam.Some? && typeParam.value != "" then typeParam.value else DefaultContentType
  }

  class CreatePostPage {
    /** The generation service the page calls; the constructor fixes it to the
        canned texts, and keeping it a field keeps those long texts out of
        the reasoning about the handlers. */
    const bodyFor: string -> string
    const hooksFor: string -> seq<string>
    const regeneratedHooksFor: string -> seq<string>

    var isGenerating: bool
    var generatedContent: string
    var generatedHooks: seq<string>
    var selectedHookIndex: int
    var isSaving: bool
    var isScheduling: bool
    var showHookSelector: bool
    var showEditModal: bool
    var isRegenerating: Regenerating
    var imageData: Option<ImageData>
    var form: PostForm

    /** The selection is "none" (-1) or the index of one of the current hooks. */
    ghost predicate Valid()
      reads this
    {
      -1 <= selectedHookIndex < |generatedHooks|
    }

    function Current(): Draft
      reads this
    {
      Draft(isGenerating, showHookSelector, generatedContent, generatedHooks, selectedHookIndex, isRegenerating)
    }

    /** The post as previewed, copied and saved. */
    function Final(): string
      reads this
    {
      FinalContent(generatedHooks, selectedHookIndex, generatedContent)
    }

    /** The picker is on screen. */
    predicate PickerShown()
      reads this
    {
      showHookSelector && |generatedHooks| > 0
    }

    /** The preview, with its toolbar and quick settings, is on screen. */
    predicate PreviewShown()
      reads this
    {
      !showHookSelector && selectedHookIndex >= 0
    }

    predicate GenerateDisabled()
      reads this
    {
      form.topic == "" || isGenerating
    }

    constructor(typeParam: Option<string>)
      ensures bodyFor == MockBody && hooksFor == FirstHooks && regeneratedHooksFor == RegeneratedHooks
      ensures Valid()
      ensures !isGenerating && generatedContent == "" && generatedHooks == [] && selectedHookIndex == -1
      ensures !isSaving && !isScheduling && !showHookSelector && !showEditModal && isRegenerating == NotRegenerating
      ensures imageData == Some(InitialImage)
      ensures form == PostForm("", InitialContentType(typeParam), "professional", "medium", true)
    {
      bodyFor := MockBody;
      hooksFor := FirstHooks;
      regeneratedHooksFor := RegeneratedHooks;
      isGenerating := false;
      generatedContent := "";
      generatedHooks := [];
      selectedHookIndex := -1;
      isSaving := false;
      isScheduling := false;
      showHookSelector := false;
      showEditModal := false;
      isRegenerating := NotRegenerating;
      imageData := Some(InitialImage);
      form := PostForm("", InitialContentType(typeParam), "professional", "medium", true);
    }

    /** The effect on the `type` parameter: only a known content type is taken. */
    method TypeParamChanged(typeParam: Option<string>)
      modifies this
      ensures typeParam.Some? && typeParam.value in KnownTypes ==> form == old(form).(contentType := typeParam.value)
      ensures !(typeParam.Some? && typeParam.value in KnownTypes) ==> form == old(form)
      ensures unchanged(this`generatedHooks, this`selectedHookIndex, this`generatedContent, this`imageData)
      ensures unchanged(this`isGenerating, this`isSaving, this`isScheduling, this`showHookSelector)
      ensures unchanged(this`showEditModal, this`isRegenerating)
    {
      if typeParam.Some? && typeParam.value != "" && typeParam.value in KnownTypes {
        form := form.(contentType := typeParam.value);
      }
    }

    method SetTopic(topic: string)
      modifies this`form
      ensures form == old(form).(topic := topic)
    {
      form := form.(topic := topic);
    }

    method SetContentType(contentType: string)
      modifies this`form
      ensures form == old(form).(contentType := contentType)
    {
      form := form.(contentType := contentType);
    }

    method SetImage(img: Option<ImageData>)
      modifies this`imageData
      ensures imageData == img
    {
      imageData := img;
    }

    /** `handleGenerate`. */
    method Generate() returns (during: Option<Draft>)
      requires Valid()
      modifies this
      ensures Valid()
      ensures old(form.topic) == "" ==> during.None? && unchanged(this)
      ensures old(form.topic) != "" ==>
        during == Some(old(Current()).(isGenerating := true, showHookSelector := false, body := ""))
        && generatedHooks == hooksFor(form.topic)
        && generatedContent == bodyFor(form.contentType)
        && showHookSelector && selectedHookIndex == -1 && !isGenerating
      ensures form == old(form) && imageData == old(imageData) && isRegenerating == old(isRegenerating)
      ensures isSaving == old(isSaving) && isScheduling == old(isScheduling) && showEditModal == old(showEditModal)
    {
      if form.topic == "" {
        return None;
      }
      var hooks, body := hooksFor(form.topic), bodyFor(form.contentType);
      isGenerating := true;
      showHookSelector := false;
      generatedContent := "";
      during := Some(Current());
      generatedHooks := hooks;
      generatedContent := body;
      showHookSelector := true;
      selectedHookIndex := -1;
      isGenerating := false;
    }

    /** `handleSelectHook`: the picker only ever hands over the index of a hook. */
    method SelectHook(index: int)
      requires Valid() && 0 <= index < |generatedHooks|
      modifies this`selectedHookIndex, this`showHookSelector
      ensures Valid() && selectedHookIndex == index && !showHookSelector
    {
      selectedHookIndex := index;
      showHookSelector := false;
    }

    /** `handleRegenerateText`: new hooks for the same topic; the body stays. */
    method RegenerateText() returns (during: Draft)
      requires Valid()
      modifies this`isRegenerating, this`generatedHooks, this`showHookSelector, this`selectedHookIndex
      ensures Valid()
      ensures during == old(Current()).(isRegenerating := RegenText)
      ensures generatedHooks == regeneratedHooksFor(form.topic)
      ensures showHookSelector && selectedHookIndex == -1 && isRegenerating == NotRegenerating
    {
      isRegenerating := RegenText;
      during := Current();
      generatedHooks := regeneratedHooksFor(form.topic);
      showHookSelector := true;
      selectedHookIndex := -1;
      isRegenerating := NotRegenerating;
    }

    /** `handleRegenerateImage`: only the flag moves. */
    method RegenerateImage() returns (during: Draft, notice: Notice)
      modifies this`isRegenerating
      ensures during == old(Current()).(isRegenerating := RegenImage)
      ensures isRegenerating == NotRegenerating
      ensures notice == Notice("Image regenerated", "New image generated successfully", false)
    {
      isRegenerating := RegenImage;
      during := Current();
      notice := Notice("Image regenerated", "New image generated successfully", false);
      isRegenerating := NotRegenerating;
    }

    /** `handleRegenerateAll`: a full generation with the flag set around it. */
    method RegenerateAll() returns (during: Draft)
      requires Valid()
      modifies this
      ensures Valid()
      ensures during.isRegenerating == RegenAll && isRegenerating == NotRegenerating
      ensures old(form.topic) == "" ==>
        during == old(Current()).(isRegenerating := RegenAll)
        && generatedHooks == old(generatedHooks) && generatedContent == old(generatedContent)
        && selectedHookIndex == old(selectedHookIndex) && showHookSelector == old(showHookSelector)
        && isGenerating == old(isGenerating)
      ensures old(form.topic) != "" ==>
        during == old(Current()).(isRegenerating := RegenAll, isGenerating := true, showHookSelector := false, body := "")
        && generatedHooks == hooksFor(form.topic)
        && generatedContent == bodyFor(form.contentType)
        && showHookSelector && selectedHookIndex == -1 && !isGenerating
      ensures form == old(form) && imageData == old(imageData)
      ensures isSaving == old(isSaving) && isScheduling == old(isScheduling) && showEditModal == old(showEditModal)
    {
      isRegenerating := RegenAll;
      var inner := Generate();
      during := if inner.Some? then inner.value else Current();
      isRegenerating := NotRegenerating;
    }

    /** `handleSettingChange`: one setting of the form, and a toast naming it. */
    method SettingChange(setting: Setting) returns (notice: Notice)
      modifies this`form
      ensures setting.Tone? ==> form == old(form).(tone := setting.tone)
      ensures setting.Length? ==> form == old(form).(length := setting.length)
      ensures setting.IncludeCta? ==> form == old(form).(includeCTA := setting.flag)
      ensures notice.title == "Setting updated" && !notice.destructive
      ensures setting.Tone? ==> notice.description == "tone changed to " + setting.tone
      ensures setting.Length? ==> notice.description == "length changed to " + setting.length
      ensures setting.IncludeCta? ==>
                notice.description == "includeCTA changed to " + (if setting.flag then "true" else "false")
    {
      match setting
      case Tone(t) =>
        form := form.(tone := t);
        notice := Notice("Setting updated", "tone changed to " + t, false);
      case Length(l) =>
        form := form.(length := l);
        notice := Notice("Setting updated", "length changed to " + l, false);
      case IncludeCta(b) =>
        form := form.(includeCTA := b);
        notice := Notice("Setting updated", "includeCTA changed to " + (if b then "true" else "false"), false);
    }

    method OpenEditor()
      modifies this`showEditModal
      ensures showEditModal
    {
      showEditModal := true;
    }

    method CloseEditor()
      modifies this`showEditModal
      ensures !showEditModal
    {
      showEditModal := false;
    }

    /** `handleSaveEdit` as written: the selected hook is stored in the body. */
    method SaveEdit(edited: string)
      requires Valid()
      modifies this`generatedContent
      ensures Valid()
      ensures generatedContent == SaveEditBody(generatedHooks, selectedHookIndex, edited)
      ensures 0 <= selectedHookIndex ==>
        Final() == generatedHooks[selectedHookIndex] + "\n\n" + generatedHooks[selectedHookIndex] + "\n\n" + edited
    {
      generatedContent := SaveEditBody(generatedHooks, selectedHookIndex, edited);
      SaveEditRepeatsHook(generatedHooks, selectedHookIndex, edited);
    }

    /** The edit as evidently intended: the edited text replaces the body, so
        the post shows the selected hook once, followed by the edited text. */
    method SaveEditIntended(edited: string)
      requires Valid()
      modifies this`generatedContent
      ensures Valid() && generatedContent == edited
      ensures 0 <= selectedHookIndex ==> Final() == generatedHooks[selectedHookIndex] + "\n\n" + edited
      ensures selectedHookIndex < 0 ==> Final() == edited
    {
      generatedContent := edited;
    }

    /** `handleSaveToLibrary`: one draft insert of the composed post. */
    method SaveToLibrary(user: Option<string>, outcome: Outcome) returns (insert: Option<ContentInsert>, notice: Option<Notice>)
      requires Valid()
      modifies this`isSaving
      ensures (user.None? || generatedContent == "") ==> insert.None? && notice.None? && isSaving == old(isSaving)
      ensures user.Some? && generatedContent != "" ==>
        insert == Some(ContentInsert(user.value, form.topic, Final(), form.contentType, form.tone,
                                     StyleOrDefault(imageData), "draft", None))
        && !isSaving
        && notice == Some(if outcome.Ok? then Notice("Saved!", "Content saved to your library.", false)
                          else FailureNotice("Save failed", outcome, "Failed to save content."))
    {
      if user.None? || generatedContent == "" {
        return None, None;
      }
      isSaving := true;
      insert := Some(ContentInsert(user.value, form.topic, Final(), form.contentType, form.tone,
                                   StyleOrDefault(imageData), "draft", None));
      if outcome.Ok? {
        notice := Some(Notice("Saved!", "Content saved to your library.", false));
      } else {
        notice := Some(FailureNotice("Save failed", outcome, "Failed to save content."));
      }
      isSaving := false;
    }

    /** `handleSchedulePost`: one insert scheduled 24 hours after `now` (ms). */
    method SchedulePost(user: Option<string>, now: int, outcome: Outcome) returns (insert: Option<ContentInsert>, notice: Option<Notice>)
      requires Valid()
      modifies this`isScheduling
      ensures (user.None? || generatedContent == "") ==> insert.None? && notice.None? && isScheduling == old(isScheduling)
      ensures user.Some? && generatedContent != "" ==>
        insert == Some(ContentInsert(user.value, form.topic, Final(), form.contentType, form.tone,
                                     StyleOrDefault(imageData), "scheduled", Some(now + DayMillis)))
        && !isScheduling
        && notice == Some(if outcome.Ok? then Notice("Scheduled!", "Post scheduled for tomorrow.", false)
                          else FailureNotice("Schedule failed", outcome, "Failed to schedule post."))
    {
      if user.None? || generatedContent == "" {
        return None, None;
      }
      isScheduling := true;
      insert := Some(ContentInsert(user.value, form.topic, Final(), form.contentType, form.tone,
                                   StyleOrDefault(imageData), "scheduled", Some(now + DayMillis)));
      if outcome.Ok? {
        notice := Some(Notice("Scheduled!", "Post scheduled for tomorrow.", false));
      } else {
        notice := Some(FailureNotice("Schedule failed", outcome, "Failed to schedule post."));
      }
      isScheduling := false;
    }
  }

  /** Every handler keeps `Valid()`: a generation, regeneration or hook
      choice leaves the selection pointing at a current hook or at nothing.
      So the page's composed post always reads a hook that exists: it is the
      selected hook, a blank line and the body, or the body alone. */
  lemma SelectionNeverDangles(p: CreatePostPage)
    requires p.Valid()
    ensures p.selectedHookIndex >= 0 ==>
              p.Final() == p.generatedHooks[p.selectedHookIndex] + "\n\n" + p.generatedContent
    ensures p.selectedHookIndex < 0 ==> p.Final() == p.generatedContent
  {
  }
}
