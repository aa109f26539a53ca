/** The upstream review APIs as the adapters see them: one GET request, answered with
    a JSON body or a failure (a transport error or a non-2xx status, which the HTTP
    client throws). The raw review shapes keep `Option` wherever the source reads
    through an object that may be missing. */
module Upstream {
  import opened Wrappers

  datatype Request = Get(url: string, authorization: Option<string>)

  /** A Places review; `time` is epoch seconds. */
  datatype GoogleRaw = GoogleRaw(
    time: int,
    authorName: string,
    profilePhotoUrl: Option<string>,
    rating: int,
    text: string,
    authorUrl: Option<string>)

  datatype GoogleResult = GoogleResult(reviews: Option<seq<GoogleRaw>>)

  datatype YelpUser = YelpUser(name: string, imageUrl: Option<string>)

  /** A Yelp review; `user` may be missing from the payload. */
  datatype YelpRaw = YelpRaw(
    id: string,
    user: Option<YelpUser>,
    rating: int,
    text: string,
    timeCreated: string,
    url: Option<string>)

  datatype FacebookPictureData = FacebookPictureData(url: Option<string>)
  datatype FacebookPicture = FacebookPicture(data: Option<FacebookPictureData>)
  datatype FacebookReviewer = FacebookReviewer(name: string, id: Option<string>, picture: Option<FacebookPicture>)

  /** A Graph API page rating; `recommendationType` is "positive" or "negative". */
  datatype FacebookRaw = FacebookRaw(
    reviewer: Option<FacebookReviewer>,
    rating: int,
    reviewText: string,
    createdTime: string,
    recommendationType: string)

  /** The JSON body of a response, in the shape of one of the three APIs. */
  datatype Body =
    | GoogleBody(result: Option<GoogleResult>)
    | YelpBody(reviews: Option<seq<YelpRaw>>)
    | FacebookBody(data: Option<seq<FacebookRaw>>)

  datatype Response = Failed(reason: string) | Delivered(body: Body)

  /** The HTTP client. What the outside world answers to a request is the fixed
      function `respond`; `requests` records every request sent, in order. */
  class Client {
    var requests: seq<Request>
    const respond: Request -> Response

    constructor (respond: Request -> Response)
      ensures requests == [] && this.respond == respond
    {
      requests := [];
      this.respond := respond;
    }

    /** `axios.get(url, { headers })`. */
    method Send(req: Request) returns (resp: Response)
      modifies this
      ensures requests == old(requests) + [req]
      ensures resp == respond(req)
    {
      requests := requests + [req];
      resp := respond(req);
    }
  }
}
