/**
 * `imagesService` (`app/services/imagesService.ts`): the user's own images,
 * another user's images, and adding an image, as functions of the server's reply.
 */
module ImagesService {
  import opened Common
  import opened Http

  const BaseUrl := "http://82.165.172.113:8745/api/v1"
  const MyImagesError := "Erreur lors de la récupération des images"
  const AddImageError := "Erreur lors de l'ajout de l'image"
  const UserImagesError := "Erreur lors de la récupération des images utilisateur"

  /** `images/me?page=<page>&limit=<limit>`; the callers' defaults are page 1 and 20 per page. */
  function MyImagesRequest(token: string, page: nat, limit: nat): (r: Request)
    ensures r.verb == GET && r.headers == Bearer(token) && r.body.None?
    ensures r.url == BaseUrl + "/images/me?" + Param("page", NatToString(page)) + "&" + Param("limit", NatToString(limit))
  {
    Request(GET, BaseUrl + "/images/me?" + Param("page", NatToString(page)) + "&" + Param("limit", NatToString(limit)),
            Bearer(token), None)
  }

  /** `getMyImages`: `data || []` on a 2xx reply, else `message || error ||` the images error. */
  function GetMyImages(reply: Reply): (e: Envelope<Json>)
    ensures WellFormed(e) && (e.success <==> Accepted(reply))
    ensures e.success ==> e.data == Some(Or(Prop(BodyOf(reply), "data"), Arr([])))
    ensures Answered(reply) && !e.success ==> e.message == Some(Preferred(BodyOf(reply), MessageOrError(MyImagesError)))
    ensures !Answered(reply) ==> e == Failure(ConnectionError)
  {
    Standard(reply, OrEmptyList, MessageOrError(MyImagesError))
  }

  /** `AddImageRequest`. */
  datatype NewImage = NewImage(imageLink: string, isPinned: bool)

  function AddImageRequest(token: string, image: NewImage): (r: Request)
    ensures r.verb == POST && r.url == BaseUrl + "/images" && r.headers == JsonBearer(token)
    ensures r.body == Some(Obj(map["image_link" := Str(image.imageLink), "is_pinned" := Bool(image.isPinned)]))
  {
    Request(POST, BaseUrl + "/images", JsonBearer(token),
            Some(Obj(map["image_link" := Str(image.imageLink), "is_pinned" := Bool(image.isPinned)])))
  }

  /** `addImage`: `data` on a 2xx reply, else `message || error ||` the add-image error. */
  function AddImage(reply: Reply): (e: Envelope<Json>)
    ensures WellFormed(e) && (e.success <==> Accepted(reply))
    ensures e.success ==> e.data == Prop(BodyOf(reply), "data")
    ensures Answered(reply) && !e.success ==> e.message == Some(Preferred(BodyOf(reply), MessageOrError(AddImageError)))
    ensures !Answered(reply) ==> e == Failure(ConnectionError)
  {
    Standard(reply, AsIs, MessageOrError(AddImageError))
  }

  function UserImagesRequest(token: string, userId: string): (r: Request)
    ensures r.verb == GET && r.url == BaseUrl + "/images/user/" + userId && r.headers == Bearer(token)
    ensures r.body.None?
  {
    Request(GET, BaseUrl + "/images/user/" + userId, Bearer(token), None)
  }

  /** `getUserImages`: `data || []` on a 2xx reply, else `message || error ||` the user-images error. */
  function GetUserImages(reply: Reply): (e: Envelope<Json>)
    ensures WellFormed(e) && (e.success <==> Accepted(reply))
    ensures e.success ==> e.data == Some(Or(Prop(BodyOf(reply), "data"), Arr([])))
    ensures Answered(reply) && !e.success ==> e.message == Some(Preferred(BodyOf(reply), MessageOrError(UserImagesError)))
    ensures !Answered(reply) ==> e == Failure(ConnectionError)
  {
    Standard(reply, OrEmptyList, MessageOrError(UserImagesError))
  }
}
