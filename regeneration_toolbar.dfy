/** The toolbar shown above a composed draft: three buttons whose enabled
    state depends on whether a regeneration is running and whether the draft
    has an image. */
module RegenerationToolbar {
  /** The `isRegenerating` flag: which regeneration is running, if any. */
  datatype Regenerating = NotRegenerating | RegenText | RegenImage | RegenAll

  predicate TextDisabled(r: Regenerating)
  {
    r != NotRegenerating
  }

  predicate ImageDisabled(hasImage: bool, r: Regenerating)
  {
    !hasImage || r != NotRegenerating
  }

  predicate EditDisabled(r: Regenerating)
  {
    r != NotRegenerating
  }

  /** While any regeneration runs, none of the three actions is enabled; when
      none runs, text and edit are enabled and image is enabled iff there is
      an image. */
  lemma ToolbarEnablement(hasImage: bool, r: Regenerating)
    ensures r != NotRegenerating ==> TextDisabled(r) && ImageDisabled(hasImage, r) && EditDisabled(r)
    ensures r == NotRegenerating ==> !TextDisabled(r) && !EditDisabled(r) && (ImageDisabled(hasImage, r) <==> !hasImage)
  {
  }
}
