/**
 * The images hook (`app/hooks/images/useUserImages.ts`): the user's images,
 * the loading, refreshing and error state around loading them, and the count
 * of photos taken in the last day. The answer of the image call is an input.
 * `stamp` stands for `new Date(text).getTime()`: the instant in milliseconds,
 * or None for an invalid date.
 */
module UserImages {
  import opened Common

  const LoadError := "Erreur lors du chargement des images"
  const RefreshError := "Erreur lors du rafraîchissement"
  /** `24 * 60 * 60 * 1000`. */
  const DayMs := 86400000

  /** What awaiting `apiService.getUserImages(page, limit, pinnedOnly)` gave. */
  datatype ImagesResponse =
    | Answer(success: bool, data: Option<Json>, message: Option<Json>)
    | Threw

  /** The answer carries images: `response.success && response.data`. */
  predicate Delivered(response: ImagesResponse) {
    response.Answer? && response.success && Present(response.data)
  }

  /** `response.data.images || []`. */
  function ImagesOf(data: Json): (r: Json)
    requires Truthy(data)
    ensures Present(Prop(data, "images")) ==> r == data.fields["images"]
    ensures !Present(Prop(data, "images")) ==> r == Arr([])
  {
    Or(Prop(data, "images"), Arr([]))
  }

  /** The images after a load: replaced when the answer delivered some, kept otherwise. */
  function ImagesAfter(images: Json, response: ImagesResponse): (r: Json)
    ensures Delivered(response) ==> r == ImagesOf(response.data.value)
    ensures !Delivered(response) ==> r == images
  {
    if Delivered(response) then ImagesOf(response.data.value) else images
  }

  /** The error after a load: none when images came, else the server's message or the given default. */
  function ErrorAfter(response: ImagesResponse, fallback: string): (r: Option<Json>)
    requires fallback != ""
    ensures r.None? <==> Delivered(response)
    ensures r.Some? ==> Truthy(r.value)
    ensures response.Answer? && !Delivered(response) && Present(response.message) ==> r == response.message
    ensures response.Threw? || (!Delivered(response) && !Present(response.message)) ==> r == Some(Str(fallback))
  {
    if Delivered(response) then None
    else if response.Threw? then Some(Str(fallback))
    else Some(Or(response.message, Str(fallback)))
  }

  /** `photoDate > dayAgo`: an invalid date compares false. */
  predicate IsRecent(img: Json, now: int, stamp: string -> Option<int>)
    requires !img.Null?
    ensures IsRecent(img, now, stamp) ==> stamp(TextOr(Prop(img, "created_at"))).Some?
    ensures stamp(TextOr(Prop(img, "created_at"))) == Some(now - DayMs) ==> !IsRecent(img, now, stamp)
    ensures stamp(TextOr(Prop(img, "created_at"))).Some? && stamp(TextOr(Prop(img, "created_at"))).value >= now ==>
              IsRecent(img, now, stamp)
  {
    var t := stamp(TextOr(Prop(img, "created_at")));
    t.Some? && t.value > now - DayMs
  }

  predicate NoNull(items: seq<Json>) {
    forall i :: 0 <= i < |items| ==> !items[i].Null?
  }

  /** `images.filter(...)`: the recent images, in their order. */
  function Recent(items: seq<Json>, now: int, stamp: string -> Option<int>): (r: seq<Json>)
    requires NoNull(items)
    ensures |r| <= |items|
    decreases |items|
  {
    if items == [] then []
    else
      var rest := Recent(items[1..], now, stamp);
      if IsRecent(items[0], now, stamp) then [items[0]] + rest else rest
  }

  /** The filter keeps exactly the recent images. */
  lemma {:induction false} RecentExactly(items: seq<Json>, now: int, stamp: string -> Option<int>)
    requires NoNull(items)
    ensures forall x :: x in Recent(items, now, stamp) ==> x in items && !x.Null? && IsRecent(x, now, stamp)
    ensures forall i :: 0 <= i < |items| && IsRecent(items[i], now, stamp) ==> items[i] in Recent(items, now, stamp)
    decreases |items|
  {
    if items != [] {
      RecentExactly(items[1..], now, stamp);
      forall i | 0 <= i < |items| && IsRecent(items[i], now, stamp)
        ensures items[i] in Recent(items, now, stamp)
      {
        if i > 0 {
          assert items[i] == items[1..][i - 1];
        }
      }
    }
  }

  /** Every image is counted exactly when all of them are recent. */
  lemma {:induction false} AllRecentIff(items: seq<Json>, now: int, stamp: string -> Option<int>)
    requires NoNull(items)
    ensures |Recent(items, now, stamp)| == |items| <==> forall i :: 0 <= i < |items| ==> IsRecent(items[i], now, stamp)
    decreases |items|
  {
    if items != [] {
      AllRecentIff(items[1..], now, stamp);
      if forall i :: 0 <= i < |items[1..]| ==> IsRecent(items[1..][i], now, stamp) {
        forall i | 0 < i < |items| ensures IsRecent(items[i], now, stamp) {
          assert items[i] == items[1..][i - 1];
        }
      }
      if forall i :: 0 <= i < |items| ==> IsRecent(items[i], now, stamp) {
        forall i | 0 <= i < |items[1..]| ensures IsRecent(items[1..][i], now, stamp) {
          assert items[1..][i] == items[i + 1];
        }
      }
    }
  }

  /**
   * `getRecentPhotosCount()`: the number of images dated strictly after one
   * day before `now`; None when the call throws (the images are not a list,
   * or one of them is `null`).
   */
  function RecentPhotosCount(images: Json, now: int, stamp: string -> Option<int>): (r: Option<nat>)
    ensures r.Some? <==> images.Arr? && NoNull(images.items)
    ensures r.Some? ==> r.value == |Recent(images.items, now, stamp)| && r.value <= |images.items|
  {
    if images.Arr? && NoNull(images.items) then Some(|Recent(images.items, now, stamp)|) else None
  }

  /** A photo with no readable date is never recent. */
  lemma UndatedIsNotRecent(img: Json, now: int, stamp: string -> Option<int>)
    requires !img.Null? && stamp(TextOr(Prop(img, "created_at"))).None?
    ensures !IsRecent(img, now, stamp)
    ensures Recent([img], now, stamp) == []
  {
  }

  class UserImagesState {
    var images: Json
    var loading: bool
    var refreshing: bool
    var error: Option<Json>

    constructor()
      ensures images == Arr([]) && !loading && !refreshing && error.None?
    {
      images := Arr([]);
      loading := false;
      refreshing := false;
      error := None;
    }

    /**
     * `loadImages`: the error is cleared, the images are replaced when some
     * came back and kept otherwise, a failure leaves the server's message or
     * the default one, and loading ends.
     */
    method LoadImages(response: ImagesResponse)
      modifies this
      ensures images == ImagesAfter(old(images), response)
      ensures error == ErrorAfter(response, LoadError)
      ensures !loading && refreshing == old(refreshing)
    {
      loading := true;
      error := None;
      match response {
        case Answer(success, data, message) =>
          if success && Present(data) {
            images := ImagesOf(data.value);
          } else {
            error := Some(Or(message, Str(LoadError)));
          }
        case Threw =>
          error := Some(Str(LoadError));
      }
      loading := false;
    }

    /** `refreshImages`: as `loadImages`, with the refreshing flag and its own default message. */
    method RefreshImages(response: ImagesResponse)
      modifies this
      ensures images == ImagesAfter(old(images), response)
      ensures error == ErrorAfter(response, RefreshError)
      ensures !refreshing && loading == old(loading)
    {
      refreshing := true;
      error := None;
      match response {
        case Answer(success, data, message) =>
          if success && Present(data) {
            images := ImagesOf(data.value);
          } else {
            error := Some(Or(message, Str(RefreshError)));
          }
        case Threw =>
          error := Some(Str(RefreshError));
      }
      refreshing := false;
    }
  }

  /** A failed refresh after a successful load keeps the loaded images on screen. */
  method LoadThenFailedRefresh(hook: UserImagesState, first: ImagesResponse, second: ImagesResponse)
    requires Delivered(first) && !Delivered(second)
    modifies hook
    ensures hook.images == ImagesOf(first.data.value)
    ensures hook.error.Some? && !hook.loading && !hook.refreshing
  {
    hook.LoadImages(first);
    hook.RefreshImages(second);
  }
}
