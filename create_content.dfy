/** The dashboard's "Create New Content" screen: a type chooser, then a form
    whose Generate button fills in the canned text for the chosen type, and
    buttons that save the text as a draft or schedule it for tomorrow. */
module CreateContent {
  import opened Common
  import opened MockContent

  datatype ContentTypeOption = ContentTypeOption(id: string, title: string, description: string)

  /** The four cards of the type chooser. */
  const ContentTypes: seq<ContentTypeOption> := [
    ContentTypeOption("engagement", "Engagement Post", "Spark conversations and build community"),
    ContentTypeOption("educational", "Educational Post", "Share knowledge and establish expertise"),
    ContentTypeOption("lead-magnet", "Lead Magnet", "Generate leads with valuable content"),
    ContentTypeOption("company-update", "Company Update", "Share company news and milestones")
  ]

  /** Every card offers a type that has a canned body. */
  lemma EveryCardHasABody(i: int)
    requires 0 <= i < |ContentTypes|
    ensures ContentTypes[i].id in KnownTypes
    ensures MockBody(ContentTypes[i].id) != ""
  {
  }

  datatype ContentForm = ContentForm(
    topic: string,
    tone: string,
    imageStyle: string,
    length: string,
    includeHashtags: bool,
    includeCTA: bool)

  const InitialForm: ContentForm := ContentForm("", "professional", "realistic_photo", "medium", true, true)

  /** One `setFormData(prev => ({ ...prev, <field>: value }))` of the form. */
  datatype FormEdit =
    | EditTopic(topic: string)
    | EditTone(tone: string)
    | EditImageStyle(imageStyle: string)
    | EditLength(length: string)
    | EditHashtags(hashtags: bool)
    | EditCta(cta: bool)

  function ApplyEdit(f: ContentForm, e: FormEdit): (r: ContentForm)
    ensures e.EditTopic? ==> r == f.(topic := e.topic)
    ensures e.EditTone? ==> r == f.(tone := e.tone)
    ensures e.EditImageStyle? ==> r == f.(imageStyle := e.imageStyle)
    ensures e.EditLength? ==> r == f.(length := e.length)
    ensures e.EditHashtags? ==> r == f.(includeHashtags := e.hashtags)
    ensures e.EditCta? ==> r == f.(includeCTA := e.cta)
  {
    match e
    case EditTopic(v) => f.(topic := v)
    case EditTone(v) => f.(tone := v)
    case EditImageStyle(v) => f.(imageStyle := v)
    case EditLength(v) => f.(length := v)
    case EditHashtags(v) => f.(includeHashtags := v)
    case EditCta(v) => f.(includeCTA := v)
  }

  class ContentCreator {
    /** The canned generation; the constructor fixes it to `MockBody`. */
    const bodyFor: string -> string

    var selectedType: string
    var isGenerating: bool
    var generatedContent: string
    var isSaving: bool
    var isScheduling: bool
    var formData: ContentForm

    /** With no type chosen the screen shows the type chooser. */
    predicate ShowsTypeChooser()
      reads this
    {
      selectedType == ""
    }

    predicate GenerateDisabled()
      reads this
    {
      formData.topic == "" || isGenerating
    }

    /** The result panel with its copy, save and schedule buttons. */
    predicate ShowsResult()
      reads this
    {
      generatedContent != ""
    }

    constructor()
      ensures bodyFor == MockBody
      ensures selectedType == "" && !isGenerating && generatedContent == ""
      ensures !isSaving && !isScheduling && formData == InitialForm
    {
      bodyFor := MockBody;
      selectedType := "";
      isGenerating := false;
      generatedContent := "";
      isSaving := false;
      isScheduling := false;
      formData := InitialForm;
    }

    /** A click on a card of the type chooser. */
    method SelectType(id: string)
      modifies this`selectedType
      ensures selectedType == id
    {
      selectedType := id;
    }

    /** The "← Back" button: back to the chooser; the generated text and the
        form are kept. */
    method Back()
      modifies this`selectedType
      ensures selectedType == "" && ShowsTypeChooser()
    {
      selectedType := "";
    }

    method EditForm(e: FormEdit)
      modifies this`formData
      ensures formData == ApplyEdit(old(formData), e)
    {
      formData := ApplyEdit(formData, e);
    }

    /** `handleGenerate`: nothing unless a type is chosen and the topic is
        non-empty; otherwise `isGenerating` is set during the simulated work
        (`during`) and the text becomes the canned body of the type. */
    method Generate() returns (during: bool)
      modifies this`isGenerating, this`generatedContent
      ensures (selectedType == "" || formData.topic == "") ==>
                !during && isGenerating == old(isGenerating) && generatedContent == old(generatedContent)
      ensures selectedType != "" && formData.topic != "" ==>
                during && !isGenerating && generatedContent == bodyFor(selectedType)
    {
      if selectedType == "" || formData.topic == "" {
        return false;
      }
      isGenerating := true;
      during := isGenerating;
      generatedContent := bodyFor(selectedType);
      isGenerating := false;
    }

    /** `handleSaveToLibrary`: one draft row holding the text as it is. */
    method SaveToLibrary(user: Option<string>, outcome: Outcome) returns (insert: Option<ContentInsert>, notice: Option<Notice>)
      modifies this`isSaving
      ensures (user.None? || generatedContent == "") ==> insert.None? && notice.None? && isSaving == old(isSaving)
      ensures user.Some? && generatedContent != "" ==>
        insert == Some(ContentInsert(user.value, formData.topic, generatedContent, selectedType, formData.tone,
                                     formData.imageStyle, "draft", None))
        && !isSaving
        && notice == Some(if outcome.Ok? then Notice("Saved!", "Content saved to your library.", false)
                          else FailureNotice("Save failed", outcome, "Failed to save content."))
    {
      if user.None? || generatedContent == "" {
        return None, None;
      }
      isSaving := true;
      insert := Some(ContentInsert(user.value, formData.topic, generatedContent, selectedType, formData.tone,
                                   formData.imageStyle, "draft", None));
      if outcome.Ok? {
        notice := Some(Notice("Saved!", "Content saved to your library.", false));
      } else {
        notice := Some(FailureNotice("Save failed", outcome, "Failed to save content."));
      }
      isSaving := false;
    }

    /** `handleSchedulePost`: one row scheduled 24 hours after `now` (ms). */
    method SchedulePost(user: Option<string>, now: int, outcome: Outcome) returns (insert: Option<ContentInsert>, notice: Option<Notice>)
      modifies this`isScheduling
      ensures (user.None? || generatedContent == "") ==> insert.None? && notice.None? && isScheduling == old(isScheduling)
      ensures user.Some? && generatedContent != "" ==>
        insert == Some(ContentInsert(user.value, formData.topic, generatedContent, selectedType, formData.tone,
                                     formData.imageStyle, "scheduled", Some(now + DayMillis)))
        && !isScheduling
        && notice == Some(if outcome.Ok? then Notice("Scheduled!", "Post scheduled for tomorrow.", false)
                          else FailureNotice("Schedule failed", outcome, "Failed to schedule post."))
    {
      if user.None? || generatedContent == "" {
        return None, None;
      }
      isScheduling := true;
      insert := Some(ContentInsert(user.value, formData.topic, generatedContent, selectedType, formData.tone,
                                   formData.imageStyle, "scheduled", Some(now + DayMillis)));
      if outcome.Ok? {
        notice := Some(Notice("Scheduled!", "Post scheduled for tomorrow.", false));
      } else {
        notice := Some(FailureNotice("Schedule failed", outcome, "Failed to schedule post."));
      }
      isScheduling := false;
    }

    /** `handleCopy`: the clipboard receives the text as shown. */
    method Copy() returns (clipboard: string, notice: Notice)
      ensures clipboard == generatedContent
      ensures notice == Notice("Copied!", "Content copied to clipboard.", false)
    {
      clipboard := generatedContent;
      notice := Notice("Copied!", "Content copied to clipboard.", false);
    }
  }
}
