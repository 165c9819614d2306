/**
 * The left sidebar's two presentation updates: renaming, and setting an
 * uploaded thumbnail. Each copies the presentation and sets one or two
 * fields. The file reader is a parameter: `converted` is the data URL it
 * produced, or `None` when reading failed.
 */
module SidebarLeft {
  import opened Wrappers
  import opened Document

  /** `handleEditTitle`: the presentation with only its name replaced. */
  function HandleEditTitle(id: string, p: Presentation, title: string): (r: StoreRequest)
    ensures r.UpdatePresentation? && r.presentationId == id
    ensures r.presentation.name == title
    ensures r.presentation.(name := p.name) == p
  {
    UpdatePresentation(id, p.(name := title))
  }

  /** The file types the thumbnail upload accepts. */
  const ValidFileTypes: seq<string> := ["image/jpeg", "image/png", "image/jpg"]

  /**
   * `handleFileUpload`: a file of another type is refused before it is
   * read, and a failed read stops too; in both cases nothing reaches the
   * store. Otherwise the presentation gets the data URL as its thumbnail,
   * typed 'base64', and nothing else changes.
   */
  function HandleFileUpload(id: string, p: Presentation, fileType: string, converted: Option<string>): (r: Option<StoreRequest>)
    ensures r.Some? <==> fileType in ValidFileTypes && converted.Some?
    ensures r.Some? ==> r.value.UpdatePresentation? && r.value.presentationId == id
    ensures r.Some? ==> r.value.presentation.thumbnail == converted
    ensures r.Some? ==> r.value.presentation.thumbnailType == Some(Base64)
    ensures r.Some? ==> r.value.presentation.(thumbnail := p.thumbnail, thumbnailType := p.thumbnailType) == p
  {
    if fileType !in ValidFileTypes then None
    else
      match converted
      case None => None
      case Some(data) => Some(UpdatePresentation(id, p.(thumbnail := Some(data), thumbnailType := Some(Base64))))
  }
}
