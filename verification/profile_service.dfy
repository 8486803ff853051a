/**
 * `profileService` (`app/services/profileService.ts`): reading the signed-in
 * user's profile, updating it, and reading another user's profile.
 */
module ProfileService {
  import opened Common
  import opened Http

  const BaseUrl := "http://82.165.172.113:8745/api/v1"
  const MyProfileError := "Erreur lors de la récupération du profil"
  const UpdateError := "Erreur lors de la mise à jour du profil"
  const UserProfileError := "Erreur lors de la récupération du profil utilisateur"

  /** `UpdateProfileRequest`: every field optional; an absent field is left out of the body. */
  datatype ProfileUpdate = ProfileUpdate(
    alias: Option<string>, birthdate: Option<string>, pays: Option<string>, langue: Option<string>,
    description: Option<string>, pronous: Option<string>, avatar: Option<string>, isPublic: Option<bool>)

  /** The keys an update can carry. */
  const UpdateKeys: set<string> := {"alias", "birthdate", "pays", "langue", "description", "pronous", "avatar", "is_public"}

  function Text(v: Option<string>): Option<Json> {
    if v.Some? then Some(Str(v.value)) else None
  }

  /** The value the update gives key `k`, if any: each text field as text, `is_public` as a flag. */
  function Sent(u: ProfileUpdate, k: string): Option<Json> {
    if k == "alias" then Text(u.alias)
    else if k == "birthdate" then Text(u.birthdate)
    else if k == "pays" then Text(u.pays)
    else if k == "langue" then Text(u.langue)
    else if k == "description" then Text(u.description)
    else if k == "pronous" then Text(u.pronous)
    else if k == "avatar" then Text(u.avatar)
    else if k == "is_public" && u.isPublic.Some? then Some(Bool(u.isPublic.value))
    else None
  }

  /** `JSON.stringify(data)`: one key per field present, with its value. */
  function UpdateBody(u: ProfileUpdate): (body: map<string, Json>)
    ensures body.Keys <= UpdateKeys
    ensures ("alias" in body <==> u.alias.Some?) && (u.alias.Some? ==> body["alias"] == Str(u.alias.value))
    ensures ("birthdate" in body <==> u.birthdate.Some?) && (u.birthdate.Some? ==> body["birthdate"] == Str(u.birthdate.value))
    ensures ("pays" in body <==> u.pays.Some?) && (u.pays.Some? ==> body["pays"] == Str(u.pays.value))
    ensures ("langue" in body <==> u.langue.Some?) && (u.langue.Some? ==> body["langue"] == Str(u.langue.value))
    ensures ("description" in body <==> u.description.Some?) && (u.description.Some? ==> body["description"] == Str(u.description.value))
    ensures ("pronous" in body <==> u.pronous.Some?) && (u.pronous.Some? ==> body["pronous"] == Str(u.pronous.value))
    ensures ("avatar" in body <==> u.avatar.Some?) && (u.avatar.Some? ==> body["avatar"] == Str(u.avatar.value))
    ensures ("is_public" in body <==> u.isPublic.Some?) && (u.isPublic.Some? ==> body["is_public"] == Bool(u.isPublic.value))
  {
    map k | k in UpdateKeys && Sent(u, k).Some? :: Sent(u, k).value
  }

  function MyProfileRequest(token: string): (r: Request)
    ensures r.verb == GET && r.url == BaseUrl + "/profile/me" && r.headers == Bearer(token)
    ensures r.body.None?
  {
    Request(GET, BaseUrl + "/profile/me", Bearer(token), None)
  }

  /** The update is a PUT of exactly the fields given. */
  function UpdateRequest(token: string, u: ProfileUpdate): (r: Request)
    ensures r.verb == PUT && r.url == BaseUrl + "/profile/me" && r.headers == JsonBearer(token)
    ensures r.body == Some(Obj(UpdateBody(u)))
  {
    Request(PUT, BaseUrl + "/profile/me", JsonBearer(token), Some(Obj(UpdateBody(u))))
  }

  function UserProfileRequest(token: string, userId: string): (r: Request)
    ensures r.verb == GET && r.url == BaseUrl + "/profile/" + userId && r.headers == Bearer(token)
    ensures r.body.None?
  {
    Request(GET, BaseUrl + "/profile/" + userId, Bearer(token), None)
  }

  /** `getMyProfile`: `data` on a 2xx reply, else `message || error ||` the profile error. */
  function GetMyProfile(reply: Reply): (e: Envelope<Json>)
    ensures WellFormed(e) && (e.success <==> Accepted(reply))
    ensures e.success ==> e.data == Prop(BodyOf(reply), "data")
    ensures Answered(reply) && !e.success ==> e.message == Some(Preferred(BodyOf(reply), MessageOrError(MyProfileError)))
    ensures !Answered(reply) ==> e == Failure(ConnectionError)
  {
    Standard(reply, AsIs, MessageOrError(MyProfileError))
  }

  /** `updateMyProfile`: `data` on a 2xx reply, else `message || error ||` the update error. */
  function UpdateMyProfile(reply: Reply): (e: Envelope<Json>)
    ensures WellFormed(e) && (e.success <==> Accepted(reply))
    ensures e.success ==> e.data == Prop(BodyOf(reply), "data")
    ensures Answered(reply) && !e.success ==> e.message == Some(Preferred(BodyOf(reply), MessageOrError(UpdateError)))
    ensures !Answered(reply) ==> e == Failure(ConnectionError)
  {
    Standard(reply, AsIs, MessageOrError(UpdateError))
  }

  /** `getUserProfile`: `data` on a 2xx reply, else `message || error ||` the user-profile error. */
  function GetUserProfile(reply: Reply): (e: Envelope<Json>)
    ensures WellFormed(e) && (e.success <==> Accepted(reply))
    ensures e.success ==> e.data == Prop(BodyOf(reply), "data")
    ensures Answered(reply) && !e.success ==> e.message == Some(Preferred(BodyOf(reply), MessageOrError(UserProfileError)))
    ensures !Answered(reply) ==> e == Failure(ConnectionError)
  {
    Standard(reply, AsIs, MessageOrError(UserProfileError))
  }
}
