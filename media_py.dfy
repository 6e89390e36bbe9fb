/**
 * The record the Python Douyin and Kuaishou readers report from `to_dict`:
 * the same seven keys, `final_url` always empty, and the reader's own
 * `app_type`.
 */
module MediaPy {
  import opened Wrappers
  import opened JsonTree
  import opened PyOps

  /** The attributes `to_dict` reports; the description, the links and the video are raw JSON leaves. */
  datatype Record = Record(url: Option<string>, title: string, description: Json, imageList: seq<Json>, video: Json)

  /** The dictionary `to_dict` builds for a reader whose `app_type` is `appType`. */
  function RecordJson(r: Record, appType: string): (j: Json)
    ensures j.JObj?
    ensures Keys(j.fields) == ["url", "final_url", "title", "description", "image_list", "video", "app_type"]
    ensures j.fields[1].1 == JStr("") && j.fields[6].1 == JStr(appType)
  {
    JObj([("url", OptStr(r.url)), ("final_url", JStr("")), ("title", JStr(r.title)), ("description", r.description),
          ("image_list", JArr(r.imageList)), ("video", r.video), ("app_type", JStr(appType))])
  }
}
