/**
 * The state of the home profile screen (`app/home.tsx`) around its photos:
 * it loads the signed-in user's images itself, keeps what it had when a load
 * brings nothing, and shows a refreshing indicator around a reload. The grid
 * and the initials it shows are those of `PhotoGrid`; its recent-photo count
 * is `UserImages.RecentPhotosCount`.
 */
module HomeScreen {
  import opened Common
  import opened UserImages

  class HomeScreenState {
    var images: Json
    var loading: bool
    var refreshing: bool

    constructor()
      ensures images == Arr([]) && !loading && !refreshing
    {
      images := Arr([]);
      loading := false;
      refreshing := false;
    }

    /**
     * `loadUserImages`: images that came back replace the list (`[]` when the
     * answer has none under `images`); anything else, including a thrown
     * error, keeps the list; loading ends.
     */
    method LoadUserImages(response: ImagesResponse)
      modifies this
      ensures images == ImagesAfter(old(images), response)
      ensures !Delivered(response) ==> images == old(images)
      ensures !loading && refreshing == old(refreshing)
    {
      loading := true;
      if response.Answer? && response.success && Present(response.data) {
        images := ImagesOf(response.data.value);
      }
      loading := false;
    }

    /** `onRefresh`: the indicator is shown around a reload. */
    method OnRefresh(response: ImagesResponse)
      modifies this
      ensures images == ImagesAfter(old(images), response)
      ensures !refreshing && !loading
    {
      refreshing := true;
      LoadUserImages(response);
      refreshing := false;
    }

    /** The mount effect: images are loaded only once a user is signed in. */
    method OnUserChange(signedIn: bool, response: ImagesResponse)
      modifies this
      ensures signedIn ==> images == ImagesAfter(old(images), response) && !loading
      ensures !signedIn ==> images == old(images) && loading == old(loading)
      ensures refreshing == old(refreshing)
    {
      if signedIn {
        LoadUserImages(response);
      }
    }
  }
}
