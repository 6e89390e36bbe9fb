/**
 * `MediaData`, the normalized record the TypeScript services return. The
 * title, description and video are typed as strings in the source but hold
 * whatever the parsed page state supplied, so they are JSON values here.
 */
module MediaTs {
  import opened Wrappers
  import opened JsonTree
  import ResponseTs

  datatype MediaData = MediaData(
    url: string,
    finalUrl: string,
    title: Json,
    description: Json,
    imageList: seq<Json>,
    /** Present only in note-site records. */
    liveList: Option<seq<Json>>,
    video: Json,
    appType: string)

  /** The object literal as serialized: `live_list` appears only when present. */
  function AsJson(m: MediaData): (j: Json)
    ensures j.JObj?
    ensures m.liveList.None? ==> Keys(j.fields) == ["url", "final_url", "title", "description", "image_list", "video", "app_type"]
    ensures m.liveList.Some? ==> Keys(j.fields) == ["url", "final_url", "title", "description", "image_list", "live_list", "video", "app_type"]
  {
    var head := [("url", JStr(m.url)), ("final_url", JStr(m.finalUrl)), ("title", m.title),
                 ("description", m.description), ("image_list", JArr(m.imageList))];
    var lives := if m.liveList.Some? then [("live_list", JArr(m.liveList.value))] else [];
    JObj(head + lives + [("video", m.video), ("app_type", JStr(m.appType))])
  }

  /** `toApiResponse` and the route's success branch: the record under code 200 and `获取成功`. */
  function SuccessResponse(m: MediaData): (r: ResponseTs.ApiResponse<Json>)
    ensures r.code == ResponseTs.SuccessCode && r.message == ResponseTs.DefaultSuccessMessage
    ensures r.data == AsJson(m) && r.data.JObj?
  {
    ResponseTs.Success(AsJson(m), ResponseTs.DefaultSuccessMessage)
  }
}
