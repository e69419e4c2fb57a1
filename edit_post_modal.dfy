/** The dialog that edits a saved post: it loads the post into a form, lets
    the user change the title, body, status, date and image, and writes the
    form back as one update of the post's row. */
module EditPostModal {
  import opened Common

  /** A `content` row as the dialog receives it. */
  datatype Content = Content(
    id: string,
    title: string,
    body: string,
    contentType: string,
    tone: string,
    imageStyle: string,
    status: string,
    scheduledAt: Option<string>,
    imageUrl: Option<string>)

  /** The dialog's form. Dates are kept as their ISO text. */
  datatype PostForm = PostForm(
    title: string,
    body: string,
    contentType: string,
    tone: string,
    imageStyle: string,
    status: string,
    scheduledAt: Option<string>,
    imageUrl: Option<string>)

  const InitialForm: PostForm := PostForm("", "", "engagement", "professional", "realistic_photo", "draft", None, None)

  /** The row update the Save button sends for the post `id`. */
  datatype ContentUpdate = ContentUpdate(
    id: string,
    title: string,
    body: string,
    contentType: string,
    tone: string,
    imageStyle: string,
    status: string,
    scheduledAt: Option<string>,
    imageUrl: Option<string>,
    updatedAt: string)

  const MaxUploadSize: nat := 10 * 1024 * 1024

  /** `value || null` on an optional string: an empty string counts as
      absent. */
  function OrNull(v: Option<string>): (r: Option<string>)
    ensures r.Some? <==> v.Some? && v.value != ""
    ensures r.Some? ==> r == v
  {
    if v.Some? && v.value != "" then v else None
  }

  /** The form a post is loaded into. */
  function FormOf(c: Content): (f: PostForm)
    ensures f.title == c.title && f.body == c.body && f.contentType == c.contentType
    ensures f.tone == c.tone && f.imageStyle == c.imageStyle && f.status == c.status
    ensures f.scheduledAt == OrNull(c.scheduledAt) && f.imageUrl == OrNull(c.imageUrl)
  {
    PostForm(c.title, c.body, c.contentType, c.tone, c.imageStyle, c.status,
             OrNull(c.scheduledAt), OrNull(c.imageUrl))
  }

  /** The update payload: the form, aimed at the post's id, stamped with the
      time of the save. */
  function UpdateOf(id: string, f: PostForm, now: string): (u: ContentUpdate)
    ensures u.id == id && u.updatedAt == now
    ensures u.title == f.title && u.body == f.body && u.contentType == f.contentType
    ensures u.tone == f.tone && u.imageStyle == f.imageStyle && u.status == f.status
    ensures u.scheduledAt == OrNull(f.scheduledAt) && u.imageUrl == f.imageUrl
  {
    ContentUpdate(id, f.title, f.body, f.contentType, f.tone, f.imageStyle, f.status,
                  OrNull(f.scheduledAt), f.imageUrl, now)
  }

  /** Saving a post as loaded writes back its own fields, with an empty date
      or image stored as null. */
  lemma SaveAsLoadedWritesBack(c: Content, now: string)
    ensures var u := UpdateOf(c.id, FormOf(c), now);
            u.id == c.id && u.title == c.title && u.body == c.body && u.contentType == c.contentType
            && u.tone == c.tone && u.imageStyle == c.imageStyle && u.status == c.status
            && u.scheduledAt == OrNull(c.scheduledAt) && u.imageUrl == OrNull(c.imageUrl)
  {
    OrNullIdempotent(c.scheduledAt);
  }

  lemma OrNullIdempotent(v: Option<string>)
    ensures OrNull(OrNull(v)) == OrNull(v)
  {
  }

  /** A form edit the dialog's inputs make. */
  datatype FormEdit =
    | EditTitle(title: string)
    | EditBody(body: string)
    | EditStatus(status: string)
    | PickDate(date: Option<string>)

  function ApplyEdit(f: PostForm, e: FormEdit): (r: PostForm)
    ensures e.EditTitle? ==> r == f.(title := e.title)
    ensures e.EditBody? ==> r == f.(body := e.body)
    ensures e.EditStatus? ==> r == f.(status := e.status)
    ensures e.PickDate? ==> r == f.(scheduledAt := e.date)
  {
    match e
    case EditTitle(v) => f.(title := v)
    case EditBody(v) => f.(body := v)
    case EditStatus(v) => f.(status := v)
    case PickDate(v) => f.(scheduledAt := v)
  }

  /** The date picker is shown only for a scheduled post. */
  predicate ShowsDatePicker(f: PostForm)
  {
    f.status == "scheduled"
  }

  /** Changing the status away from "scheduled" hides the picker but keeps
      the date, so it is still saved. */
  lemma StatusChangeKeepsDate(f: PostForm, status: string, id: string, now: string)
    ensures ApplyEdit(f, EditStatus(status)).scheduledAt == f.scheduledAt
    ensures ShowsDatePicker(ApplyEdit(f, EditStatus(status))) <==> status == "scheduled"
    ensures UpdateOf(id, ApplyEdit(f, EditStatus(status)), now).scheduledAt == OrNull(f.scheduledAt)
  {
  }

  class EditDialog {
    var content: Option<Content>
    var isSaving: bool
    var formData: PostForm

    constructor()
      ensures content.None? && !isSaving && formData == InitialForm
    {
      content := None;
      isSaving := false;
      formData := InitialForm;
    }

    predicate SaveDisabled()
      reads this
    {
      isSaving || formData.title == "" || formData.body == ""
    }

    /** A new `content` prop: a post replaces the whole form; `null` leaves
        the form as it was. */
    method Load(c: Option<Content>)
      modifies this
      ensures content == c && isSaving == old(isSaving)
      ensures c.Some? ==> formData == FormOf(c.value)
      ensures c.None? ==> formData == old(formData)
    {
      content := c;
      if c.Some? {
        formData := FormOf(c.value);
      }
    }

    method Edit(e: FormEdit)
      modifies this`formData
      ensures formData == ApplyEdit(old(formData), e)
    {
      formData := ApplyEdit(formData, e);
    }

    /** `handleRemoveImage`: only the image goes. */
    method RemoveImage()
      modifies this`formData
      ensures formData == old(formData).(imageUrl := None)
    {
      formData := formData.(imageUrl := None);
    }

    /** `handleUploadImage` for a chosen file of `size` bytes. `readResult`
        is what the reader holds when `onloadend` fires: the data URL, or
        `None` (null) when the read failed, which drops any current image.
        With no file nothing happens. */
    method UploadImage(size: Option<nat>, readResult: Option<string>) returns (notice: Option<Notice>)
      modifies this`formData
      ensures size.None? ==> notice.None? && formData == old(formData)
      ensures size.Some? && size.value > MaxUploadSize ==>
                notice == Some(Notice("File too large", "Maximum file size is 10MB", true)) && formData == old(formData)
      ensures size.Some? && size.value <= MaxUploadSize ==>
                notice.None? && formData == old(formData).(imageUrl := readResult)
    {
      if size.None? {
        return None;
      }
      if size.value > MaxUploadSize {
        return Some(Notice("File too large", "Maximum file size is 10MB", true));
      }
      formData := formData.(imageUrl := readResult);
      notice := None;
    }

    /** `handleSave`: no post, no update. Otherwise one update of the post's
        row; on success `onSuccess` runs (`succeeded`) and the dialog asks to
        close, on failure it stays open. `now` is the ISO time of the save. */
    method Save(now: string, outcome: Outcome) returns (update: Option<ContentUpdate>, notice: Option<Notice>, succeeded: bool, closes: bool)
      modifies this`isSaving
      ensures content.None? ==> update.None? && notice.None? && !succeeded && !closes && isSaving == old(isSaving)
      ensures content.Some? ==> update == Some(UpdateOf(content.value.id, formData, now)) && !isSaving
      ensures content.Some? && outcome.Ok? ==>
                succeeded && closes && notice == Some(Notice("Saved!", "Content updated successfully.", false))
      ensures content.Some? && outcome.Err? ==>
                !succeeded && !closes && notice == Some(FailureNotice("Save failed", outcome, "Failed to update content."))
    {
      if content.None? {
        return None, None, false, false;
      }
      isSaving := true;
      update := Some(UpdateOf(content.value.id, formData, now));
      if outcome.Ok? {
        notice := Some(Notice("Saved!", "Content updated successfully.", false));
        succeeded, closes := true, true;
      } else {
        notice := Some(FailureNotice("Save failed", outcome, "Failed to update content."));
        succeeded, closes := false, false;
      }
      isSaving := false;
    }
  }
}
