/** The image-processing endpoint: it settles which search the images
    belong to, rejects a request without a search id or without images,
    hands the two lists to the pipeline and reports how many images were
    saved. Authentication, CORS and logging are not modelled. */
module ProcessImages {
  import opened Wrappers
  import opened JsValues
  import opened World
  import opened ImageProcessor
  import Spaces

  /** An image list of the request body: absent (the destructuring
      default `[]` applies), `null` (the default does not apply, and
      reading its `length` throws), or an array of image URLs. */
  datatype ImageList = Absent | NullList | Urls(urls: seq<string>)

  /** The request body fields the handler reads. */
  datatype ProcessRequest = ProcessRequest(searchId: JsValue, search_id: JsValue, googleImages: ImageList, baiduImages: ImageList)

  /** The URLs a list holds once the default is applied. */
  function Images(l: ImageList): (urls: seq<string>)
    ensures l.Absent? ==> urls == []
    ensures l.Urls? ==> urls == l.urls
  {
    if l.Urls? then l.urls else []
  }

  const MissingSearchIdError: string := "Missing searchId"
  const MissingSearchIdMessage: string := "searchId or search_id is required"
  const NoImagesError: string := "No images provided"
  const NoImagesMessage: string := "At least one of google_images or baidu_images must be provided"
  const CompleteMessage: string := "Image processing complete"
  const FailedError: string := "Failed to process images"

  /** The responses of the endpoint. The message of a thrown error is the
      engine's own text and is not modelled. */
  datatype Response =
    | Rejected(error: string, message: string)
    | Processed(searchId: JsValue, total: nat, saved: nat, errors: nat, message: string)
    | Failed(error: string)
  {
    function Status(): (s: int)
      ensures s in {200, 400, 500}
    {
      match this
      case Rejected(_, _) => 400
      case Processed(_, _, _, _, _) => 200
      case Failed(_) => 500
    }
  }

  /** What the checks before processing decide: the response that ends the
      request, or the search id and lists to process. */
  datatype Admission = Reject(response: Response) | Admit(searchId: JsValue, google: seq<string>, baidu: seq<string>)

  /** The checks of the handler in their order: the search id (`searchId`,
      falling back to `search_id`) must be truthy; reading the length of a
      `null` list throws; both lists empty is rejected. */
  function CheckRequest(req: ProcessRequest): (a: Admission)
    ensures !Truthy(req.searchId) && !Truthy(req.search_id) ==>
              a == Reject(Rejected(MissingSearchIdError, MissingSearchIdMessage))
    ensures (Truthy(req.searchId) || Truthy(req.search_id)) && (req.googleImages.NullList? || req.baiduImages.NullList?) ==>
              a == Reject(Failed(FailedError))
    ensures a == Reject(Rejected(NoImagesError, NoImagesMessage)) <==>
              (Truthy(req.searchId) || Truthy(req.search_id))
              && !req.googleImages.NullList? && !req.baiduImages.NullList?
              && Images(req.googleImages) == [] && Images(req.baiduImages) == []
    ensures a.Reject? ==> a.response.Status() != 200
    ensures (&& (Truthy(req.searchId) || Truthy(req.search_id))
             && !req.googleImages.NullList? && !req.baiduImages.NullList?
             && |Images(req.googleImages)| + |Images(req.baiduImages)| > 0)
            ==> a.Admit?
    ensures a.Admit? ==>
              && (Truthy(req.searchId) ==> a.searchId == req.searchId)
              && (!Truthy(req.searchId) ==> a.searchId == req.search_id)
              && Truthy(a.searchId)
              && a.google == Images(req.googleImages) && a.baidu == Images(req.baiduImages)
              && |a.google| + |a.baidu| > 0
  {
    var finalSearchId := Or(req.searchId, req.search_id);
    if !Truthy(finalSearchId) then
      Reject(Rejected(MissingSearchIdError, MissingSearchIdMessage))
    else if req.googleImages.NullList? || req.baiduImages.NullList? then
      Reject(Failed(FailedError))
    else if |Images(req.googleImages)| == 0 && |Images(req.baiduImages)| == 0 then
      Reject(Rejected(NoImagesError, NoImagesMessage))
    else
      Admit(finalSearchId, Images(req.googleImages), Images(req.baiduImages))
  }

  /** The 200 response: the total is the number of images submitted, the
      counts are the pipeline's. */
  function Report(searchId: JsValue, google: seq<string>, baidu: seq<string>, results: Counts): (r: Response)
    ensures r.Status() == 200 && r.Processed? && r.searchId == searchId
    ensures r.total == |google| + |baidu|
    ensures r.saved == results.saved && r.errors == results.errors
  {
    Processed(searchId, |google| + |baidu|, results.saved, results.errors, CompleteMessage)
  }

  /** The handler: a rejected request reaches none of the oracles; an
      admitted one runs the pipeline over both lists and reports a total
      that its saved and failed images add up to. */
  method Handle(cfg: Spaces.SpacesConfig, world: Environment, req: ProcessRequest)
    returns (r: Response, ghost googleTraces: seq<ItemTrace>, ghost baiduTraces: seq<ItemTrace>)
    modifies world
    ensures CheckRequest(req).Reject? ==> r == CheckRequest(req).response && world.log == old(world.log)
    ensures CheckRequest(req).Admit? ==>
              var a := CheckRequest(req);
              && r.Processed? && r.searchId == a.searchId
              && r.total == |a.google| + |a.baidu| == r.saved + r.errors
              && AllWellFormed(cfg, a.google, googleTraces) && AllWellFormed(cfg, a.baidu, baiduTraces)
              && r.saved == CountTrue(Outcomes(googleTraces)) + CountTrue(Outcomes(baiduTraces))
              && world.log == old(world.log)
                              + BatchEvents(a.searchId, Google, a.google, googleTraces)
                              + BatchEvents(a.searchId, Baidu, a.baidu, baiduTraces)
  {
    googleTraces, baiduTraces := [], [];
    match CheckRequest(req) {
      case Reject(response) =>
        r := response;
      case Admit(searchId, google, baidu) =>
        var results;
        results, googleTraces, baiduTraces := ProcessAndSaveImages(cfg, world, searchId, google, baidu);
        r := Report(searchId, google, baidu, results);
    }
  }

  /** The table receives at least one row per image reported saved and at
      most one per image submitted. */
  lemma ProcessedRowsBetweenSavedAndTotal(cfg: Spaces.SpacesConfig, searchId: JsValue,
                                          google: seq<string>, googleTraces: seq<ItemTrace>,
                                          baidu: seq<string>, baiduTraces: seq<ItemTrace>)
    requires AllWellFormed(cfg, google, googleTraces) && AllWellFormed(cfg, baidu, baiduTraces)
    ensures var rows := StoredRows(BatchEvents(searchId, Google, google, googleTraces)
                                   + BatchEvents(searchId, Baidu, baidu, baiduTraces));
            CountTrue(Outcomes(googleTraces)) + CountTrue(Outcomes(baiduTraces)) <= |rows| <= |google| + |baidu|
  {
    StoredRowsAppend(BatchEvents(searchId, Google, google, googleTraces), BatchEvents(searchId, Baidu, baidu, baiduTraces));
    RowsBetweenSavedAndTotal(cfg, searchId, Google, google, googleTraces);
    RowsBetweenSavedAndTotal(cfg, searchId, Baidu, baidu, baiduTraces);
  }
}
