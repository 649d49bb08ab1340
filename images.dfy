/** `ImagesEndpoints` (inventaire/server/endpoints/images.py): image data and
    uploads, under the base path "images". */
module ImagesEndpoints {
  import opened Values
  import opened Common

  /** `ImagesEndpoints.__init__`. */
  function Facade(): (e: EndpointTemplate)
    ensures e.basePath == Some("images")
  {
    New().(basePath := Some("images"))
  }

  /** `get_data_url`: the single key "url". */
  function GetDataUrl(url: string): (r: Outcome)
    ensures r == Req(GET, "images?action=data-url", map["url" := Str(url)])
  {
    ActionTarget(Facade(), "images", "data-url", "images?action=data-url");
    Send(GET, Path(Facade(), Some("data-url")), map["url" := Str(url)])
  }

  /** `upload`: the container and the hash flag as query parameters, and the file
      path and bytes handed to the session's multipart upload unchanged. */
  function Upload(u: Utils, imagePath: Option<string> := None, imageData: Option<seq<bv8>> := None,
                  container: string := "entities", hash: bool := true): (r: Outcome)
    ensures r.MultipartUpload? && r.target == "images?action=upload"
    ensures r.filePath == imagePath && r.fileBytes == imageData
    ensures r.params.Keys == {"container", "hash"}
    ensures r.params["container"] == Str(container) && r.params["hash"] == u.strBool(Bool(hash))
  {
    var params := map["container" := Str(container), "hash" := u.strBool(Bool(hash))];
    ActionTarget(Facade(), "images", "upload", "images?action=upload");
    match Path(Facade(), Some("upload"))
    case Target(t) => MultipartUpload(t, imagePath, imageData, params)
    case BasePathNotSet => PathError
  }

  /** Called with no optional argument, `upload` sends to the "entities" container
      with hashing requested, and passes no file. */
  lemma UploadDefaults(u: Utils)
    ensures Upload(u) == MultipartUpload("images?action=upload", None, None,
                                         map["container" := Str("entities"), "hash" := u.strBool(Bool(true))])
  {
  }
}
