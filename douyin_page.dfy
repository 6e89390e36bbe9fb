/**
 * The page key both Douyin readers use to pick an entry of `loaderData`: a
 * probe of the raw payload text, not of the parsed tree, decides between the
 * note page and the video page.
 */
module DouyinPage {
  import Text

  const NoteProbe: string := "note_(id)"
  const NotePage: string := "note_(id)/page"
  const VideoPage: string := "video_(id)/page"

  /** The note page when the raw payload mentions `note_(id)`, else the video page. */
  function PageKey(dataText: string): (k: string)
    ensures k == NotePage <==> Text.Contains(dataText, NoteProbe)
    ensures k == NotePage || k == VideoPage
  {
    if Text.Contains(dataText, NoteProbe) then NotePage else VideoPage
  }
}
