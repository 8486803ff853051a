/**
 * The profile editing overlay (`app/components/ProfileEditOverlay.tsx`): a form
 * filled from the current profile, three pickers over fixed lists, a date
 * field, a validation pass, and a save that sends only the fields that
 * changed and merges the server's answer into the profile.
 */
module ProfileEdit {
  import opened Common
  import opened Dates
  import opened Http
  import ProfileService

  // ---------------------------------------------------------------- picker lists

  const Countries: seq<string> := [
    "France", "Belgique", "Suisse", "Canada", "Luxembourg", "Monaco", "États-Unis",
    "Royaume-Uni", "Allemagne", "Espagne", "Italie", "Pays-Bas", "Portugal", "Autriche",
    "Suède", "Norvège", "Danemark", "Pologne", "République tchèque", "Hongrie", "Grèce",
    "Turquie", "Maroc", "Tunisie", "Algérie", "Sénégal", "Côte d'Ivoire", "Cameroun",
    "Madagascar", "Mauritanie", "Mali", "Burkina Faso", "Niger", "Tchad",
    "République centrafricaine", "République démocratique du Congo", "République du Congo",
    "Gabon", "Guinée équatoriale", "Burundi", "Rwanda", "Djibouti", "Comores", "Seychelles",
    "Maurice"]

  const Languages: seq<string> := [
    "Français", "English", "Español", "Deutsch", "Italiano", "Nederlands", "Português",
    "Svenska", "Norsk", "Dansk", "Polski", "Čeština", "Magyar", "Ελληνικά", "Türkçe",
    "العربية", "Русский", "中文", "日本語", "한국어", "हिन्दी", "Bahasa Indonesia", "ไทย",
    "Tiếng Việt"]

  const Pronouns: seq<string> := [
    "il/lui", "elle/elle", "iel/ellui", "il ou elle", "aucun pronom préféré", "they/them",
    "he/him", "she/her", "ze/zir", "xe/xem"]

  /**
   * The action sheet's answer: button 0 is "Annuler" and leaves the value as it
   * was; button `i` picks the `i`-th entry of the list, `list[i - 1]`.
   */
  function Picked(list: seq<string>, index: nat, current: string): (r: string)
    requires index <= |list|
    ensures index == 0 ==> r == current
    ensures index > 0 ==> r == list[index - 1]
    ensures r == current || r in list
  {
    if index > 0 then list[index - 1] else current
  }

  // ---------------------------------------------------------------- form

  /** The text fields of the form. */
  datatype TextField = Alias | Birthdate | Pays | Langue | Description | Pronous

  /**
   * `formData`. `isPublic` is None when the profile it was copied from held no
   * boolean `is_public` (the value is then `undefined`).
   */
  datatype EditForm = EditForm(
    alias: string, birthdate: string, pays: string, langue: string, description: string,
    pronous: string, isPublic: Option<bool>)

  const InitialForm := EditForm("", "", "", "", "", "", Some(true))

  function Get(d: EditForm, f: TextField): string {
    match f
    case Alias => d.alias
    case Birthdate => d.birthdate
    case Pays => d.pays
    case Langue => d.langue
    case Description => d.description
    case Pronous => d.pronous
  }

  /** `updateFormData(key, value)` for a text field: only that field changes. */
  function Set(d: EditForm, f: TextField, v: string): (r: EditForm)
    ensures Get(r, f) == v
    ensures forall g :: g != f ==> Get(r, g) == Get(d, g)
    ensures r.isPublic == d.isPublic
  {
    match f
    case Alias => d.(alias := v)
    case Birthdate => d.(birthdate := v)
    case Pays => d.(pays := v)
    case Langue => d.(langue := v)
    case Description => d.(description := v)
    case Pronous => d.(pronous := v)
  }

  /** The profile as the overlay receives it: a JavaScript object. */
  type Profile = map<string, Json>

  /** `profile?.k`: undefined when there is no profile or no such key. */
  function Field(profile: Option<Profile>, k: string): (r: Option<Json>)
    ensures r.Some? <==> profile.Some? && k in profile.value
  {
    if profile.Some? && k in profile.value then Some(profile.value[k]) else None
  }

  /** `profile.is_public` copied into the form: a boolean, or `undefined`. */
  function PublicFlag(v: Option<Json>): Option<bool> {
    if v.Some? && v.value.Bool? then Some(v.value.b) else None
  }

  /** The form value of `is_public` as a JavaScript value. */
  function PublicValue(b: Option<bool>): (r: Option<Json>)
    ensures PublicFlag(r) == b
  {
    if b.Some? then Some(Bool(b.value)) else None
  }

  /** The initial data of the effect: each text field `profile.k || ""`, and `is_public` as it is. */
  function FromProfile(p: Profile): EditForm {
    var q := Some(p);
    EditForm(TextOr(Field(q, "alias")), TextOr(Field(q, "birthdate")), TextOr(Field(q, "pays")),
             TextOr(Field(q, "langue")), TextOr(Field(q, "description")), TextOr(Field(q, "pronous")),
             PublicFlag(Field(q, "is_public")))
  }

  // ---------------------------------------------------------------- validation

  const AliasTooShort := "L'alias doit contenir au moins 2 caractères"
  const AliasTooLong := "L'alias ne peut pas dépasser 30 caractères"
  const DescriptionTooLong := "La description ne peut pas dépasser 500 caractères"
  const TooYoung := "Vous devez avoir au moins 13 ans"
  const FutureBirthdate := "La date de naissance ne peut pas être dans le futur"

  /** The age rule counts plain years, so a date in the future is always also under 13. */
  lemma FutureBirthdateIsUnderThirteen(birth: Date, today: Date)
    requires Before(today, birth)
    ensures YearDifference(birth, today) < 13
  {
  }

  /** A blank alias always has a trimmed length under 2, so `!alias` adds nothing to the length test. */
  lemma EmptyAliasIsShort(alias: string)
    requires alias == ""
    ensures JsLength(Trim(alias)) < 2
  {
  }

  /** The age `validateForm` checks: `parse` stands for `new Date(text)`, None for an invalid date. */
  function BirthdateMessage(text: string, today: Date, parse: string -> Option<Date>): (m: Option<string>)
    ensures m.Some? <==> text != "" && parse(text).Some?
                         && (YearDifference(parse(text).value, today) < 13 || Before(today, parse(text).value))
    ensures m.Some? ==> m.value == (if Before(today, parse(text).value) then FutureBirthdate else TooYoung)
  {
    if text == "" then None
    else match parse(text)
      case None => None
      case Some(birth) =>
        if Before(today, birth) then Some(FutureBirthdate)
        else if YearDifference(birth, today) < 13 then Some(TooYoung)
        else None
  }

  /** The alias message, lengths in UTF-16 code units: too long wins over too short. */
  function AliasMessage(alias: string): (m: Option<string>)
    ensures |alias| > 30 ==> m == Some(AliasTooLong)
    ensures m.Some? <==> JsLength(Trim(alias)) < 2 || JsLength(alias) > 30
    ensures m.Some? ==> m.value == (if JsLength(alias) > 30 then AliasTooLong else AliasTooShort)
  {
    if JsLength(alias) > 30 then Some(AliasTooLong)
    else if JsLength(Trim(alias)) < 2 then Some(AliasTooShort)
    else None
  }

  function AddMessage(m: map<string, string>, k: string, msg: Option<string>): map<string, string> {
    if msg.Some? then m[k := msg.value] else m
  }

  /**
   * The messages `validateForm` sets: one for the alias, the description and
   * the birthdate each, or none when the field is accepted.
   */
  function FormErrors(d: EditForm, today: Date, parse: string -> Option<Date>): (e: map<string, string>)
    ensures e.Keys <= {"alias", "description", "birthdate"}
    ensures ("alias" in e <==> AliasMessage(d.alias).Some?) && ("alias" in e ==> e["alias"] == AliasMessage(d.alias).value)
    ensures "description" in e <==> JsLength(d.description) > 500
    ensures |d.description| > 500 ==> "description" in e
    ensures "description" in e ==> e["description"] == DescriptionTooLong
    ensures "birthdate" in e <==> BirthdateMessage(d.birthdate, today, parse).Some?
    ensures "birthdate" in e ==> e["birthdate"] == BirthdateMessage(d.birthdate, today, parse).value
  {
    var m0 := AddMessage(map[], "alias", AliasMessage(d.alias));
    var m1 := AddMessage(m0, "description", if JsLength(d.description) > 500 then Some(DescriptionTooLong) else None);
    AddMessage(m1, "birthdate", BirthdateMessage(d.birthdate, today, parse))
  }

  /** The alias checks of `validateForm`: the second write, too long, wins over the first. */
  method CheckAlias(m: map<string, string>, alias: string) returns (r: map<string, string>)
    ensures r == AddMessage(m, "alias", AliasMessage(alias))
  {
    r := m;
    if alias == "" || JsLength(Trim(alias)) < 2 {
      r := r["alias" := AliasTooShort];
    }
    if alias != "" && JsLength(alias) > 30 {
      r := r["alias" := AliasTooLong];
    }
    if alias == "" {
      EmptyAliasIsShort(alias);
    }
  }

  /** The birthdate checks of `validateForm`: the second write, a future date, wins over the first. */
  method CheckBirthdate(m: map<string, string>, text: string, today: Date, parse: string -> Option<Date>) returns (r: map<string, string>)
    ensures r == AddMessage(m, "birthdate", BirthdateMessage(text, today, parse))
  {
    r := m;
    if text != "" {
      var birth := parse(text);
      if birth.Some? {
        var age := YearDifference(birth.value, today);
        if age < 13 {
          r := r["birthdate" := TooYoung];
        }
        if Before(today, birth.value) {
          r := r["birthdate" := FutureBirthdate];
        }
      }
    }
  }

  // ---------------------------------------------------------------- changed fields

  /** `a !== b` on the primitive values compared here. */
  predicate Differs(a: Option<Json>, b: Option<Json>) {
    a != b
  }

  /** A text field that is sent only when it is non-empty and differs from the profile. */
  function Changed(v: string, profile: Option<Profile>, k: string): Option<string> {
    if v != "" && Differs(Some(Str(v)), Field(profile, k)) then Some(v) else None
  }

  /**
   * `updateData`: alias, birthdate, country, language and pronouns when
   * non-empty and different from the profile; the description and `is_public`
   * whenever they differ, even when cleared. The avatar is never sent here.
   */
  function Diff(d: EditForm, profile: Option<Profile>): (u: ProfileService.ProfileUpdate)
    ensures u.alias.Some? <==> d.alias != "" && Field(profile, "alias") != Some(Str(d.alias))
    ensures u.birthdate.Some? <==> d.birthdate != "" && Field(profile, "birthdate") != Some(Str(d.birthdate))
    ensures u.pays.Some? <==> d.pays != "" && Field(profile, "pays") != Some(Str(d.pays))
    ensures u.langue.Some? <==> d.langue != "" && Field(profile, "langue") != Some(Str(d.langue))
    ensures u.pronous.Some? <==> d.pronous != "" && Field(profile, "pronous") != Some(Str(d.pronous))
    ensures u.description.Some? <==> Field(profile, "description") != Some(Str(d.description))
    ensures u.isPublic.Some? <==> d.isPublic.Some? && Field(profile, "is_public") != Some(Bool(d.isPublic.value))
    ensures u.alias.Some? ==> u.alias.value == d.alias
    ensures u.birthdate.Some? ==> u.birthdate.value == d.birthdate
    ensures u.pays.Some? ==> u.pays.value == d.pays
    ensures u.langue.Some? ==> u.langue.value == d.langue
    ensures u.pronous.Some? ==> u.pronous.value == d.pronous
    ensures u.description.Some? ==> u.description.value == d.description
    ensures u.isPublic.Some? ==> u.isPublic == d.isPublic
    ensures u.avatar.None?
  {
    ProfileService.ProfileUpdate(
      Changed(d.alias, profile, "alias"),
      Changed(d.birthdate, profile, "birthdate"),
      Changed(d.pays, profile, "pays"),
      Changed(d.langue, profile, "langue"),
      if Differs(Some(Str(d.description)), Field(profile, "description")) then Some(d.description) else None,
      Changed(d.pronous, profile, "pronous"),
      None,
      if Differs(PublicValue(d.isPublic), Field(profile, "is_public")) then d.isPublic else None)
  }

  /** `Object.keys(updateData).length === 0`. */
  predicate NoChanges(u: ProfileService.ProfileUpdate) {
    ProfileService.UpdateBody(u) == map[]
  }

  /** Every key that `updateData` holds carries a value the profile does not already have. */
  lemma DiffOnlyChanges(d: EditForm, profile: Option<Profile>)
    ensures forall k :: k in ProfileService.UpdateBody(Diff(d, profile)) ==>
              Field(profile, k) != Some(ProfileService.UpdateBody(Diff(d, profile))[k])
  {
    var u := Diff(d, profile);
    var body := ProfileService.UpdateBody(u);
    forall k | k in body
      ensures Field(profile, k) != Some(body[k])
    {
    }
  }

  /**
   * The own enumerable properties that `{...v}` copies: an object's fields, an
   * array's elements or a string's characters under the keys "0", "1", ...,
   * and nothing for `null`, a number or a boolean.
   */
  function OwnEntries(v: Json): (r: map<string, Json>)
    ensures v.Obj? ==> r == v.fields
    ensures v.Arr? ==> r == Indexed(v.items)
    ensures v.Str? ==> r == Indexed(Characters(v.s))
    ensures v.Null? || v.Bool? || v.Num? ==> r == map[]
  {
    match v
    case Obj(fields) => fields
    case Arr(items) => Indexed(items)
    case Str(s) => Indexed(Characters(s))
    case _ => map[]
  }

  /** The elements of `xs` under the keys "0", "1", ... */
  function Indexed(xs: seq<Json>): (r: map<string, Json>)
    ensures forall i :: 0 <= i < |xs| ==> NatToString(i) in r && r[NatToString(i)] == xs[i]
    ensures forall k :: k in r ==> exists i :: 0 <= i < |xs| && NatToString(i) == k
  {
    NatToStringInjective();
    map i | 0 <= i < |xs| :: NatToString(i) := xs[i]
  }

  /** The characters of `s`, each as a one-character string. */
  function Characters(s: string): (r: seq<Json>)
    ensures |r| == |s| && forall i :: 0 <= i < |s| ==> r[i] == Str([s[i]])
  {
    seq(|s|, i requires 0 <= i < |s| => Str([s[i]]))
  }

  /** Only an object can bring a named field: the keys of any other value are decimal indices. */
  lemma OnlyObjectsNameFields(v: Json, k: string)
    requires !v.Obj? && k in OwnEntries(v)
    ensures k != "" && '0' <= k[0] <= '9'
  {
    var xs := if v.Arr? then v.items else Characters(v.s);
    assert k in Indexed(xs);
    var i :| 0 <= i < |xs| && NatToString(i) == k;
  }

  /** `{...a, ...b}`: the keys of both, a key of `b` taking its value from `b`; `undefined` adds nothing. */
  function Spread(a: map<string, Json>, b: Option<Json>): (r: map<string, Json>)
    ensures b.None? ==> r == a
    ensures b.Some? ==> r.Keys == a.Keys + OwnEntries(b.value).Keys
    ensures b.Some? ==> forall k :: k in r ==> r[k] == if k in OwnEntries(b.value) then OwnEntries(b.value)[k] else a[k]
  {
    if b.Some? then a + OwnEntries(b.value) else a
  }

  /** The keys the server's data contributes to the merge. */
  predicate FromData(data: Option<Json>, k: string) {
    data.Some? && k in OwnEntries(data.value)
  }

  /** The profile handed to the parent: the old profile, then the server's data, then `updateData`. */
  function Merge(profile: Option<Profile>, data: Option<Json>, u: ProfileService.ProfileUpdate): (m: Profile)
    ensures forall k :: k in m <==> Field(profile, k).Some? || FromData(data, k) || k in ProfileService.UpdateBody(u)
  {
    Spread(if profile.Some? then profile.value else map[], data) + ProfileService.UpdateBody(u)
  }

  /** In the merged profile, the sent fields win over the server's data, which wins over the old profile. */
  lemma MergePrecedence(profile: Option<Profile>, data: Option<Json>, u: ProfileService.ProfileUpdate, k: string)
    requires k in Merge(profile, data, u)
    ensures k in ProfileService.UpdateBody(u) ==> Merge(profile, data, u)[k] == ProfileService.UpdateBody(u)[k]
    ensures k !in ProfileService.UpdateBody(u) && FromData(data, k) ==>
              Merge(profile, data, u)[k] == OwnEntries(data.value)[k]
    ensures k !in ProfileService.UpdateBody(u) && !FromData(data, k) ==>
              Field(profile, k) == Some(Merge(profile, data, u)[k])
  {
  }

  /**
   * Sending the changed fields is enough: whatever the server answers, the
   * merged profile shows every non-empty text field of the form, the
   * description even when empty, and the form's `is_public`.
   */
  lemma MergeShowsForm(d: EditForm, profile: Option<Profile>, data: Option<Json>)
    ensures var m := Merge(profile, data, Diff(d, profile));
            (d.alias != "" && !FromData(data, "alias") ==> m["alias"] == Str(d.alias))
            && (d.pays != "" && !FromData(data, "pays") ==> m["pays"] == Str(d.pays))
            && (!FromData(data, "description") ==> m["description"] == Str(d.description))
            && (d.isPublic.Some? && !FromData(data, "is_public") ==>
                  m["is_public"] == Bool(d.isPublic.value))
  {
    var u := Diff(d, profile);
  }

  /**
   * Sent fields always reach the merged profile, whatever the server's data
   * holds: this is why the merge puts `updateData` last.
   */
  lemma SentFieldsSurvive(d: EditForm, profile: Option<Profile>, data: Option<Json>)
    ensures var u := Diff(d, profile);
            var m := Merge(profile, data, u);
            (u.alias.Some? ==> m["alias"] == Str(d.alias))
            && (u.pays.Some? ==> m["pays"] == Str(d.pays))
            && (u.description.Some? ==> m["description"] == Str(d.description))
            && (u.isPublic.Some? ==> m["is_public"] == Bool(u.isPublic.value))
  {
    var u := Diff(d, profile);
  }

  /** Clearing a field is sent only for the description (and `is_public`); a cleared alias is not. */
  lemma ClearingRules(d: EditForm, profile: Option<Profile>)
    ensures d.alias == "" ==> Diff(d, profile).alias.None?
    ensures d.pays == "" ==> Diff(d, profile).pays.None?
    ensures d.description == "" && Field(profile, "description").Some? && Field(profile, "description").value != Str("") ==>
              Diff(d, profile).description == Some("")
  {
  }

  /** A form that repeats the profile sends nothing, so the overlay just closes. */
  lemma UnchangedFormSendsNothing(p: Profile)
    requires "description" in p && p["description"].Str?
    requires "is_public" in p && p["is_public"].Bool?
    requires forall k :: k in {"alias", "birthdate", "pays", "langue", "pronous"} && k in p ==> p[k].Str?
    ensures NoChanges(Diff(FromProfile(p), Some(p)))
  {
    var d := FromProfile(p);
    var u := Diff(d, Some(p));
    assert u.alias.None? && u.birthdate.None? && u.pays.None? && u.langue.None? && u.pronous.None?;
  }

  // ---------------------------------------------------------------- saving

  const SessionExpiredMessage := "Session expirée, veuillez vous reconnecter"
  const UpdateFailed := "Erreur lors de la mise à jour du profil"

  /** How `handleSave` ends. */
  datatype SaveOutcome =
    | Invalid                                                   // validation failed, nothing else happens
    | SessionExpired                                            // alert, then the overlay closes
    | NothingChanged                                            // the overlay closes without a request
    | Saved(updated: Profile, sent: ProfileService.ProfileUpdate)  // the parent receives `updated`
    | SaveFailed(message: Json, sent: ProfileService.ProfileUpdate)

  /**
   * What `handleSave` does once the form is valid: `token` is what the token
   * store returned (None for `null`), `reply` is the answer to the update
   * request.
   */
  function SaveResult(d: EditForm, profile: Option<Profile>, token: Option<string>, reply: Reply): (r: SaveOutcome)
    ensures (token.None? || token.value == "") <==> r == SessionExpired
    ensures r.NothingChanged? <==> token.Some? && token.value != "" && NoChanges(Diff(d, profile))
    ensures r.Saved? || r.SaveFailed? ==> r.sent == Diff(d, profile) && !NoChanges(r.sent)
    ensures r.Saved? <==> token.Some? && token.value != "" && !NoChanges(Diff(d, profile))
                          && Accepted(reply) && Present(Prop(BodyOf(reply), "data"))
    ensures r.Saved? ==> r.updated == Merge(profile, Prop(BodyOf(reply), "data"), Diff(d, profile))
    ensures r.SaveFailed? && Answered(reply) && !Accepted(reply) ==>
              r.message == Preferred(BodyOf(reply), MessageOrError(ProfileService.UpdateError))
    ensures r.SaveFailed? && !Answered(reply) ==> r.message == Str(ConnectionError)
    ensures r.SaveFailed? && Accepted(reply) ==> r.message == Str(UpdateFailed)
    ensures r != Invalid
  {
    if token.None? || token.value == "" then SessionExpired
    else
      var u := Diff(d, profile);
      if NoChanges(u) then NothingChanged
      else
        var result := ProfileService.UpdateMyProfile(reply);
        if result.success && Present(result.data) then Saved(Merge(profile, result.data, u), u)
        else SaveFailed(Or(result.message, Str(UpdateFailed)), u)
  }

  // ---------------------------------------------------------------- the overlay's state

  class ProfileEditOverlay {
    var formData: EditForm
    var errors: map<string, string>
    var isLoading: bool
    var showDatePicker: bool
    /** The picker's date; None stands for an invalid `Date`. */
    var selectedDate: Option<Date>

    constructor(today: Date)
      ensures formData == InitialForm && errors == map[] && !isLoading && !showDatePicker
      ensures selectedDate == Some(today)
    {
      formData := InitialForm;
      errors := map[];
      isLoading := false;
      showDatePicker := false;
      selectedDate := Some(today);
    }

    /**
     * The effect run when the profile or the visibility changes: with a profile
     * and the overlay visible, the form is filled from the profile, the errors
     * are cleared and, when a birthdate is present, the picker starts on it.
     */
    method Load(profile: Option<Profile>, visible: bool, parse: string -> Option<Date>)
      modifies this
      ensures profile.Some? && visible ==> formData == FromProfile(profile.value) && errors == map[]
      ensures profile.Some? && visible && formData.birthdate != "" ==> selectedDate == parse(formData.birthdate)
      ensures !(profile.Some? && visible && formData.birthdate != "") ==> selectedDate == old(selectedDate)
      ensures !(profile.Some? && visible) ==> formData == old(formData) && errors == old(errors)
      ensures isLoading == old(isLoading) && showDatePicker == old(showDatePicker)
    {
      if profile.Some? && visible {
        formData := FromProfile(profile.value);
        errors := map[];
        if formData.birthdate != "" {
          selectedDate := parse(formData.birthdate);
        }
      }
    }

    /** `updateFormData(key, value)` for a text field. */
    method UpdateText(f: TextField, value: string)
      modifies this
      ensures formData == Set(old(formData), f, value)
      ensures errors == old(errors) && isLoading == old(isLoading)
      ensures showDatePicker == old(showDatePicker) && selectedDate == old(selectedDate)
    {
      formData := Set(formData, f, value);
    }

    /** The visibility switch: `updateFormData("is_public", value)`. */
    method UpdateVisibility(value: bool)
      modifies this
      ensures formData == old(formData).(isPublic := Some(value))
      ensures errors == old(errors) && isLoading == old(isLoading)
      ensures showDatePicker == old(showDatePicker) && selectedDate == old(selectedDate)
    {
      formData := formData.(isPublic := Some(value));
    }

    /** The country, language and pronoun pickers: button `index` of the action sheet. */
    method PickCountry(index: nat)
      requires index <= |Countries|
      modifies this
      ensures formData == old(formData).(pays := Picked(Countries, index, old(formData).pays))
      ensures errors == old(errors) && isLoading == old(isLoading)
      ensures showDatePicker == old(showDatePicker) && selectedDate == old(selectedDate)
    {
      if index > 0 {
        UpdateText(Pays, Countries[index - 1]);
      }
    }

    method PickLanguage(index: nat)
      requires index <= |Languages|
      modifies this
      ensures formData == old(formData).(langue := Picked(Languages, index, old(formData).langue))
      ensures errors == old(errors) && isLoading == old(isLoading)
      ensures showDatePicker == old(showDatePicker) && selectedDate == old(selectedDate)
    {
      if index > 0 {
        UpdateText(Langue, Languages[index - 1]);
      }
    }

    method PickPronouns(index: nat)
      requires index <= |Pronouns|
      modifies this
      ensures formData == old(formData).(pronous := Picked(Pronouns, index, old(formData).pronous))
      ensures errors == old(errors) && isLoading == old(isLoading)
      ensures showDatePicker == old(showDatePicker) && selectedDate == old(selectedDate)
    {
      if index > 0 {
        UpdateText(Pronous, Pronouns[index - 1]);
      }
    }

    /** Pressing the birthdate field opens the date picker. */
    method OpenDatePicker()
      modifies this
      ensures showDatePicker
      ensures formData == old(formData) && errors == old(errors) && selectedDate == old(selectedDate)
      ensures isLoading == old(isLoading)
    {
      showDatePicker := true;
    }

    /**
     * `handleDateChange`: the picker closes; a chosen date becomes the picker's
     * date and is stored as `YYYY-MM-DD`; dismissing it changes nothing else.
     */
    method HandleDateChange(date: Option<Date>)
      requires date.Some? ==> Printable(date.value)
      modifies this
      ensures !showDatePicker
      ensures date.None? ==> formData == old(formData) && selectedDate == old(selectedDate)
      ensures date.Some? ==> selectedDate == date && formData == Set(old(formData), Birthdate, IsoDate(date.value))
      ensures date.Some? ==> ParseIsoDate(formData.birthdate) == date
      ensures errors == old(errors) && isLoading == old(isLoading)
    {
      showDatePicker := false;
      if date.Some? {
        selectedDate := date;
        UpdateText(Birthdate, IsoDate(date.value));
        IsoDateRoundTrip(date.value);
      }
    }

    /**
     * `validateForm`: the messages are written one after the other into a new
     * map, which replaces the errors; the form is valid when it stayed empty.
     */
    method ValidateForm(today: Date, parse: string -> Option<Date>) returns (valid: bool)
      modifies this
      ensures errors == FormErrors(formData, today, parse)
      ensures valid <==> errors == map[]
      ensures formData == old(formData) && isLoading == old(isLoading)
      ensures showDatePicker == old(showDatePicker) && selectedDate == old(selectedDate)
    {
      var d := formData;
      var newErrors := CheckAlias(map[], d.alias);
      if d.description != "" && JsLength(d.description) > 500 {
        newErrors := newErrors["description" := DescriptionTooLong];
      }
      newErrors := CheckBirthdate(newErrors, d.birthdate, today, parse);
      errors := newErrors;
      valid := |newErrors| == 0;
      assert valid <==> newErrors == map[] by {
        if |newErrors| == 0 {
          assert forall k :: k !in newErrors;
        }
      }
    }

    /**
     * `handleSave`: nothing happens past a failed validation; otherwise loading
     * is set, the outcome is `SaveResult`, and loading ends false on every path.
     */
    method HandleSave(today: Date, parse: string -> Option<Date>, profile: Option<Profile>,
                      token: Option<string>, reply: Reply) returns (outcome: SaveOutcome)
      modifies this
      ensures outcome == Invalid <==> errors != map[]
      ensures outcome == Invalid ==> isLoading == old(isLoading)
      ensures errors == FormErrors(old(formData), today, parse)
      ensures outcome != Invalid ==> outcome == SaveResult(formData, profile, token, reply) && !isLoading
      ensures formData == old(formData)
      ensures showDatePicker == old(showDatePicker) && selectedDate == old(selectedDate)
    {
      var valid := ValidateForm(today, parse);
      if !valid {
        outcome := Invalid;
        return;
      }
      isLoading := true;
      outcome := SaveResult(formData, profile, token, reply);
      isLoading := false;
    }
  }
}
