/** The image panel of the post editor: switching between a generated and an
    uploaded image, choosing a style and template, and validating an upload.
    The panel does not own the image record; its handlers hand a new record
    to the parent (`onImageChange`), modelled here as a returned value. */
module ImageSettings {
  import opened Common

  datatype Mode = Generate | Upload

  datatype Dimensions = Dimensions(width: int, height: int)

  /** A file picked or dropped by the user: its name, MIME type and size in bytes. */
  datatype ImageFile = ImageFile(name: string, mimeType: string, size: int)

  /** `ImageData`: every field but the mode is optional. */
  datatype ImageData = ImageData(
    mode: Mode,
    style: Option<string>,
    template: Option<string>,
    generatedUrl: Option<string>,
    file: Option<ImageFile>,
    preview: Option<string>,
    filename: Option<string>,
    size: Option<int>,
    dimensions: Option<Dimensions>)

  const ImageStyles: seq<string> := ["realistic_photo", "abstract", "illustration", "minimalist", "corporate"]
  const ImageTemplates: seq<string> := ["none", "quote_card", "split_screen", "profile_feature", "data_viz", "before_after"]

  const DefaultStyle: string := "realistic_photo"
  const DefaultTemplate: string := "none"

  const ValidTypes: seq<string> := ["image/png", "image/jpeg", "image/jpg", "image/gif", "image/webp"]
  const MaxFileSize: int := 10 * 1024 * 1024
  const MinDimension: int := 400

  /** The image record the post editor starts with. */
  const InitialImage: ImageData :=
    ImageData(Generate, Some(DefaultStyle), Some(DefaultTemplate), None, None, None, None, None, None)

  /** True when nothing of an upload is recorded. */
  predicate NoUploadFields(img: ImageData)
  {
    img.file.None? && img.preview.None? && img.filename.None? && img.size.None? && img.dimensions.None?
  }

  /** The record a handler spreads into its new object; spreading `null`
      contributes no fields. */
  function Spread(current: Option<ImageData>): ImageData
  {
    if current.Some? then current.value
    else ImageData(Generate, None, None, None, None, None, None, None, None)
  }

  /** The draft has an image: one will be generated, or a file is attached. */
  predicate HasImage(img: Option<ImageData>)
  {
    img.Some? && (img.value.mode == Generate || img.value.file.Some?)
  }

  /** The generate switch: on gives the default generated image, off an empty
      upload record; neither keeps anything of the previous record. */
  function ToggleMode(checked: bool): (r: ImageData)
    ensures checked ==> r == InitialImage
    ensures !checked ==> r.mode == Upload && r.style.None? && r.template.None?
    ensures r.generatedUrl.None? && NoUploadFields(r)
  {
    ImageData(if checked then Generate else Upload,
              if checked then Some(DefaultStyle) else None,
              if checked then Some(DefaultTemplate) else None,
              None, None, None, None, None, None)
  }

  /** Choosing a style: generate mode with that style, every other field kept. */
  function StyleChange(current: Option<ImageData>, value: string): (r: ImageData)
    ensures r.mode == Generate && r.style == Some(value)
    ensures r.(mode := Spread(current).mode, style := Spread(current).style) == Spread(current)
  {
    Spread(current).(mode := Generate, style := Some(value))
  }

  /** Choosing a template: generate mode with that template, every other field kept. */
  function TemplateChange(current: Option<ImageData>, value: string): (r: ImageData)
    ensures r.mode == Generate && r.template == Some(value)
    ensures r.(mode := Spread(current).mode, template := Spread(current).template) == Spread(current)
  {
    Spread(current).(mode := Generate, template := Some(value))
  }

  /** A record is consistent when it carries only the fields of its own mode. */
  predicate Consistent(img: ImageData)
  {
    (img.mode == Generate ==> NoUploadFields(img))
    && (img.mode == Upload ==> img.style.None? && img.template.None? && img.generatedUrl.None?)
  }

  /** Both positions of the switch give a consistent record, and the style
      and template selects (shown only in generate mode) keep a consistent
      generate record consistent, so the panel never mixes the two modes. */
  lemma ModesStaySeparate(current: Option<ImageData>, value: string)
    ensures Consistent(ToggleMode(true)) && Consistent(ToggleMode(false))
    ensures current.Some? && current.value.mode == Generate && Consistent(current.value)
            ==> Consistent(StyleChange(current, value)) && Consistent(TemplateChange(current, value))
    ensures HasImage(Some(ToggleMode(true))) && !HasImage(Some(ToggleMode(false)))
  {
  }

  datatype FileCheck = FileOk | InvalidFormat | TooLarge

  /** `validateFile`: the format is checked before the size. */
  function ValidateFile(f: ImageFile): (r: FileCheck)
    ensures r == FileOk <==> f.mimeType in ValidTypes && f.size <= MaxFileSize
    ensures f.mimeType !in ValidTypes ==> r == InvalidFormat
    ensures r == TooLarge ==> f.mimeType in ValidTypes && f.size > MaxFileSize
  {
    if f.mimeType !in ValidTypes then InvalidFormat
    else if f.size > MaxFileSize then TooLarge
    else FileOk
  }

  function FileCheckNotice(c: FileCheck): Option<Notice>
  {
    match c
    case FileOk => None
    case InvalidFormat => Some(Notice("Invalid format", "Please upload PNG, JPG, GIF or WebP only", true))
    case TooLarge => Some(Notice("File too large", "Maximum file size is 10MB", true))
  }

  /** What an upload does: the preview URL it releases, the record it hands
      to the parent, and the toast it shows. */
  datatype UploadEffect = UploadEffect(revoked: Option<string>, emitted: Option<ImageData>, notice: Option<Notice>)

  /** `handleFileUpload`, with the object URL the browser creates (`preview`)
      and the decoded size of the image (`decoded`) as inputs. */
  function FileUpload(f: ImageFile, preview: string, decoded: Dimensions): (r: UploadEffect)
    ensures r.emitted.Some? <==> ValidateFile(f) == FileOk && decoded.width >= MinDimension && decoded.height >= MinDimension
    ensures ValidateFile(f) != FileOk ==> r == UploadEffect(None, None, FileCheckNotice(ValidateFile(f)))
    ensures r.revoked.Some? <==> ValidateFile(f) == FileOk && r.emitted.None?
    ensures r.revoked.Some? ==> r.revoked.value == preview
    ensures r.emitted.Some? ==>
      var img := r.emitted.value;
      img.mode == Upload && img.file == Some(f) && img.preview == Some(preview)
      && img.filename == Some(f.name) && img.size == Some(f.size) && img.dimensions == Some(decoded)
      && img.style.None? && img.template.None? && img.generatedUrl.None?
  {
    var check := ValidateFile(f);
    if check != FileOk then UploadEffect(None, None, FileCheckNotice(check))
    else if decoded.width < MinDimension || decoded.height < MinDimension then
      UploadEffect(Some(preview), None, Some(Notice("Image too small", "Minimum dimensions are 400\U{00D7}400px", true)))
    else
      UploadEffect(None,
                   Some(ImageData(Upload, None, None, None, Some(f), Some(preview), Some(f.name), Some(f.size), Some(decoded))),
                   Some(Notice("Image uploaded", f.name + " uploaded successfully", false)))
  }

  /** The parent's image after a handler ran: the emitted record, or the old
      one when the handler emitted none. */
  function AfterChange(current: Option<ImageData>, emitted: Option<ImageData>): Option<ImageData>
  {
    if emitted.Some? then emitted else current
  }

  /** A rejected or too-small upload leaves the image exactly as it was, and
      an accepted one attaches an image. */
  lemma UploadOutcome(current: Option<ImageData>, f: ImageFile, preview: string, decoded: Dimensions)
    ensures ValidateFile(f) != FileOk ==> AfterChange(current, FileUpload(f, preview, decoded).emitted) == current
    ensures (decoded.width < MinDimension || decoded.height < MinDimension)
            ==> AfterChange(current, FileUpload(f, preview, decoded).emitted) == current
    ensures FileUpload(f, preview, decoded).emitted.Some?
            ==> HasImage(AfterChange(current, FileUpload(f, preview, decoded).emitted))
                && Consistent(FileUpload(f, preview, decoded).emitted.value)
  {
  }

  /** `handleRemoveFile`: releases the current preview, if any, and hands the
      parent an upload record with nothing attached. */
  function RemoveFile(current: Option<ImageData>): (r: (Option<string>, ImageData))
    ensures r.0.Some? <==> current.Some? && current.value.preview.Some? && current.value.preview.value != ""
    ensures r.0.Some? ==> r.0 == current.value.preview
    ensures r.1.mode == Upload && NoUploadFields(r.1) && !HasImage(Some(r.1)) && Consistent(r.1)
  {
    var revoked := if current.Some? && current.value.preview.Some? && current.value.preview.value != ""
                   then current.value.preview else None;
    (revoked, ImageData(Upload, None, None, None, None, None, None, None, None))
  }

  /** The panel's own state: whether it is expanded and whether a file is
      being dragged over the drop zone. */
  class ImagePanel {
    var isExpanded: bool
    var isDragging: bool

    constructor()
      ensures isExpanded && !isDragging
    {
      isExpanded := true;
      isDragging := false;
    }

    method ToggleExpanded()
      modifies this
      ensures isExpanded == !old(isExpanded) && isDragging == old(isDragging)
    {
      isExpanded := !isExpanded;
    }

    method DragOver()
      modifies this
      ensures isDragging && isExpanded == old(isExpanded)
    {
      isDragging := true;
    }

    method DragLeave()
      modifies this
      ensures !isDragging && isExpanded == old(isExpanded)
    {
      isDragging := false;
    }

    /** A drop ends the drag and uploads the first dropped file, if any. */
    method Drop(files: seq<ImageFile>, preview: string, decoded: Dimensions) returns (effect: Option<UploadEffect>)
      modifies this
      ensures !isDragging && isExpanded == old(isExpanded)
      ensures effect.Some? <==> |files| > 0
      ensures |files| > 0 ==> effect == Some(FileUpload(files[0], preview, decoded))
    {
      isDragging := false;
      if |files| > 0 {
        effect := Some(FileUpload(files[0], preview, decoded));
      } else {
        effect := None;
      }
    }

    /** The file input uploads its first selected file, if any. */
    method FileInputChange(files: seq<ImageFile>, preview: string, decoded: Dimensions) returns (effect: Option<UploadEffect>)
      ensures effect.Some? <==> |files| > 0
      ensures |files| > 0 ==> effect == Some(FileUpload(files[0], preview, decoded))
    {
      if |files| > 0 {
        effect := Some(FileUpload(files[0], preview, decoded));
      } else {
        effect := None;
      }
    }
  }
}
