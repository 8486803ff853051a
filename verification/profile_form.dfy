/**
 * The profile form hook (`app/hooks/profile/useProfileForm.ts`): the country,
 * language and pronoun tables, the field rules, the language selection kept
 * as a list and as a ", "-joined string, and the submit step.
 */
module ProfileForm {
  import opened Common
  import opened Dates
  import AuthRules
  import ApiService
  import ProfileService

  // ---------------------------------------------------------------- tables

  /** A table row: a code, a display name and a flag. */
  datatype Entry = Entry(code: string, name: string, flag: string)

  predicate IsUpper(c: char) {
    'A' <= c <= 'Z'
  }

  /** The flag emoji of a two-letter region: two regional indicator symbols. */
  function Flag(region: string): (f: string)
    requires |region| == 2 && IsUpper(region[0]) && IsUpper(region[1])
    ensures |f| == 2
    ensures forall i :: 0 <= i < 2 ==> 0x1F1E6 <= f[i] as int <= 0x1F1FF
  {
    [(0x1F1E6 + (region[0] as int - 'A' as int)) as char, (0x1F1E6 + (region[1] as int - 'A' as int)) as char]
  }

  function Country(code: string, name: string): Entry
    requires |code| == 2 && IsUpper(code[0]) && IsUpper(code[1])
  {
    Entry(code, name, Flag(code))
  }

  const Countries: seq<Entry> := [
    Country("FR", "France"), Country("US", "États-Unis"), Country("GB", "Royaume-Uni"),
    Country("DE", "Allemagne"), Country("ES", "Espagne"), Country("IT", "Italie"),
    Country("CA", "Canada"), Country("JP", "Japon"), Country("AU", "Australie"),
    Country("BR", "Brésil"), Country("MX", "Mexique"), Country("NL", "Pays-Bas"),
    Country("BE", "Belgique"), Country("CH", "Suisse"), Country("SE", "Suède"),
    Country("NO", "Norvège"), Country("DK", "Danemark"), Country("FI", "Finlande"),
    Country("PL", "Pologne"), Country("PT", "Portugal")]

  const Languages: seq<Entry> := [
    Entry("fr", "Français", Flag("FR")), Entry("en", "English", Flag("US")),
    Entry("es", "Español", Flag("ES")), Entry("de", "Deutsch", Flag("DE")),
    Entry("it", "Italiano", Flag("IT")), Entry("pt", "Português", Flag("PT")),
    Entry("nl", "Nederlands", Flag("NL")), Entry("sv", "Svenska", Flag("SE")),
    Entry("no", "Norsk", Flag("NO")), Entry("da", "Dansk", Flag("DK")),
    Entry("fi", "Suomi", Flag("FI")), Entry("pl", "Polski", Flag("PL")),
    Entry("ja", "日本語", Flag("JP"))]

  const Pronouns: seq<string> := ["il/lui", "elle/elle", "iel/ielle", "they/them", "he/him", "she/her", "autre"]

  const NoCountryChosen := "Sélectionner un pays"
  const NoLanguageChosen := "Sélectionner des langues"

  /** The row a lookup is after: by code, or also by name. */
  predicate Matches(e: Entry, x: string, byName: bool) {
    e.code == x || (byName && e.name == x)
  }

  /** `table.find(...)`: the index of the first matching row, or None. */
  function FindFrom(table: seq<Entry>, x: string, byName: bool, i: nat): (r: Option<nat>)
    requires i <= |table|
    ensures r.Some? ==> i <= r.value < |table| && Matches(table[r.value], x, byName)
    ensures r.Some? ==> forall j :: i <= j < r.value ==> !Matches(table[j], x, byName)
    ensures r.None? ==> forall j :: i <= j < |table| ==> !Matches(table[j], x, byName)
    decreases |table| - i
  {
    if i == |table| then None
    else if Matches(table[i], x, byName) then Some(i)
    else FindFrom(table, x, byName, i + 1)
  }

  function Find(table: seq<Entry>, x: string, byName: bool): (r: Option<nat>)
    ensures r.Some? ==> r.value < |table| && Matches(table[r.value], x, byName)
    ensures r.Some? ==> forall j :: 0 <= j < r.value ==> !Matches(table[j], x, byName)
    ensures r.None? <==> forall j :: 0 <= j < |table| ==> !Matches(table[j], x, byName)
  {
    FindFrom(table, x, byName, 0)
  }

  function Label(e: Entry): string {
    e.flag + " " + e.name
  }

  /**
   * `getCountryDisplay`: the placeholder for "", the flag and name of the
   * first country whose code or name is the input, or the input itself.
   */
  function GetCountryDisplay(x: string): (r: string)
    ensures x == "" ==> r == NoCountryChosen
    ensures x != "" && (exists j :: 0 <= j < |Countries| && Matches(Countries[j], x, true)) ==>
              exists j :: 0 <= j < |Countries| && Matches(Countries[j], x, true) && r == Label(Countries[j])
                          && forall k :: 0 <= k < j ==> !Matches(Countries[k], x, true)
    ensures x != "" && (forall j :: 0 <= j < |Countries| ==> !Matches(Countries[j], x, true)) ==> r == x
  {
    if x == "" then NoCountryChosen
    else match Find(Countries, x, true)
      case Some(j) => Label(Countries[j])
      case None => x
  }

  /** One selected language as shown: flag and name when the code is known, else the code. */
  function LanguageLabel(code: string): (r: string)
    ensures (forall j :: 0 <= j < |Languages| ==> Languages[j].code != code) ==> r == code
    ensures forall j :: 0 <= j < |Languages| && Languages[j].code == code ==>
              exists k :: 0 <= k <= j && Languages[k].code == code && r == Label(Languages[k])
  {
    match Find(Languages, code, false)
    case Some(j) => Label(Languages[j])
    case None => code
  }

  function LanguageLabels(codes: seq<string>): (r: seq<string>)
    ensures |r| == |codes|
    ensures forall i :: 0 <= i < |codes| ==> r[i] == LanguageLabel(codes[i])
  {
    seq(|codes|, i requires 0 <= i < |codes| => LanguageLabel(codes[i]))
  }

  /** `getLanguagesDisplay`: the placeholder, or one label per selected code, in order, joined by ", ". */
  function GetLanguagesDisplay(selected: seq<string>): (r: string)
    ensures selected == [] ==> r == NoLanguageChosen
    ensures selected != [] ==> r == Join(LanguageLabels(selected), ", ")
  {
    if selected == [] then NoLanguageChosen else Join(LanguageLabels(selected), ", ")
  }

  /** A known code shows its flag and name. */
  lemma CountryDisplayKnownCode()
    ensures GetCountryDisplay("FR") == Flag("FR") + " France"
  {
    assert Matches(Countries[0], "FR", true);
  }

  // ---------------------------------------------------------------- language selection

  /** `xs.filter((l) => l !== c)`. */
  function Without(xs: seq<string>, c: string): (r: seq<string>)
    ensures c !in r
    ensures forall x :: x != c ==> (x in r <==> x in xs)
    ensures |r| <= |xs|
    decreases |xs|
  {
    if xs == [] then [] else (if xs[0] == c then [] else [xs[0]]) + Without(xs[1..], c)
  }

  lemma {:induction false} WithoutAbsent(xs: seq<string>, c: string)
    requires c !in xs
    ensures Without(xs, c) == xs
    decreases |xs|
  {
    if xs != [] {
      WithoutAbsent(xs[1..], c);
      assert [xs[0]] + xs[1..] == xs;
    }
  }

  lemma {:induction false} WithoutAppend(xs: seq<string>, ys: seq<string>, c: string)
    ensures Without(xs + ys, c) == Without(xs, c) + Without(ys, c)
    decreases |xs|
  {
    if xs != [] {
      assert (xs + ys)[1..] == xs[1..] + ys;
      WithoutAppend(xs[1..], ys, c);
    } else {
      assert xs + ys == ys;
    }
  }

  /**
   * `toggleLanguage`'s new list: the code removed when present, appended when
   * absent. Membership of the code flips, and with the code left aside the
   * list is unchanged, order included.
   */
  function Toggle(langs: seq<string>, c: string): (r: seq<string>)
    ensures c in r <==> c !in langs
    ensures Without(r, c) == Without(langs, c)
  {
    if c in langs then
      WithoutAbsent(Without(langs, c), c);
      Without(langs, c)
    else
      WithoutAppend(langs, [c], c);
      assert Without([c], c) == [];
      langs + [c]
  }

  /** Selecting a language and selecting it again gives back the original list. */
  lemma ToggleTwice(langs: seq<string>, c: string)
    requires c !in langs
    ensures Toggle(Toggle(langs, c), c) == langs
  {
    WithoutAppend(langs, [c], c);
    assert Without([c], c) == [];
    WithoutAbsent(langs, c);
  }

  /** The stored ", "-joined string reads back as the selection when the form is loaded again. */
  lemma LanguagesRoundTrip(langs: seq<string>)
    requires langs != []
    requires forall i :: 0 <= i < |langs| ==> langs[i] != "" && !Includes(langs[i], ", ")
    ensures NonEmpty(Split(Join(langs, ", "), ", ")) == langs
  {
    SplitJoin(langs, ", ");
    NonEmptyKeeps(langs);
  }

  // ---------------------------------------------------------------- field rules

  datatype ProfileField = AliasField | BirthdateField | PaysField | LangueField
                        | DescriptionField | AvatarField | PronousField | IsPublicField

  const AliasTooShort := "Au moins 3 caractères requis"
  const AliasCharset := "Lettres, chiffres et _ uniquement"
  const BadDate := "Format de date invalide"
  const TooYoung := "Vous devez avoir au moins 18 ans"
  const BadAge := "Âge invalide"
  const DescriptionTooLong := "Maximum 500 caractères"
  const BadAvatar := "URL d'image invalide"

  const Schemes: seq<string> := ["http://", "https://"]
  const ImageExtensions: seq<string> := ["jpg", "jpeg", "png", "gif", "webp"]

  predicate NoLineBreak(s: string) {
    forall i :: 0 <= i < |s| ==> !IsLineTerminator(s[i])
  }

  /**
   * `/^https?:\/\/.+\.(jpg|jpeg|png|gif|webp)$/i`: ignoring ASCII case, a
   * scheme, at least one character that is not a line break, a dot and an
   * image extension at the very end.
   */
  predicate MatchesAvatarPattern(s: string)
    ensures MatchesAvatarPattern(s) ==> 12 <= |s|
  {
    var l := LowerAscii(s);
    exists p | p in Schemes :: exists e | e in ImageExtensions :: SchemeThenImage(l, p, e)
  }

  /** `l` is scheme `p`, a non-empty run without line breaks, '.', extension `e`. */
  predicate SchemeThenImage(l: string, p: string, e: string) {
    |p| + 1 + |e| < |l| && l[..|p|] == p && l[|l| - |e| - 1..] == "." + e
    && NoLineBreak(l[|p|..|l| - |e| - 1])
  }

  lemma LowerAsciiAppend(a: string, b: string)
    ensures LowerAscii(a + b) == LowerAscii(a) + LowerAscii(b)
  {
    var l, r := LowerAscii(a + b), LowerAscii(a) + LowerAscii(b);
    forall i | 0 <= i < |l| ensures l[i] == r[i] {
      if i < |a| {
        assert (a + b)[i] == a[i];
      } else {
        assert (a + b)[i] == b[i - |a|];
      }
    }
  }

  lemma LowerAsciiKeepsLowerCase(s: string)
    requires forall i :: 0 <= i < |s| ==> !('A' <= s[i] <= 'Z')
    ensures LowerAscii(s) == s
  {
  }

  /** The pattern ignores ASCII case: a URL matches iff its lower-case form does. */
  lemma AvatarPatternIgnoresCase(s: string)
    ensures MatchesAvatarPattern(s) <==> MatchesAvatarPattern(LowerAscii(s))
  {
    var l := LowerAscii(s);
    assert LowerAscii(l) == l by {
      forall i | 0 <= i < |l| ensures LowerAscii(l)[i] == l[i] {
      }
    }
  }

  lemma SchemeIsLowerCase(p: string)
    requires p in Schemes
    ensures LowerAscii(p) == p
  {
    assert p == "http://" || p == "https://";
    LowerAsciiKeepsLowerCase(p);
  }

  lemma ExtensionIsLowerCase(e: string)
    requires e in ImageExtensions
    ensures LowerAscii("." + e) == "." + e
  {
    assert e == "jpg" || e == "jpeg" || e == "png" || e == "gif" || e == "webp";
    LowerAsciiKeepsLowerCase("." + e);
  }

  lemma LowerAsciiNoLineBreak(s: string)
    requires NoLineBreak(s)
    ensures NoLineBreak(LowerAscii(s))
  {
    var h := LowerAscii(s);
    forall i | 0 <= i < |h| ensures !IsLineTerminator(h[i]) {
      assert h[i] == LowerChar(s[i]);
    }
  }

  /** Any scheme, any non-empty text without a line break, '.', any image extension: accepted. */
  lemma AvatarAccepted(p: string, host: string, e: string)
    requires p in Schemes && e in ImageExtensions
    requires host != "" && NoLineBreak(host)
    ensures MatchesAvatarPattern(p + host + "." + e)
  {
    var l := LowerAscii(p + host + "." + e);
    SchemeIsLowerCase(p);
    ExtensionIsLowerCase(e);
    LowerOfParts(p, host, e);
    LowerAsciiNoLineBreak(host);
    SchemeThenImageOf(p, LowerAscii(host), e);
    assert SchemeThenImage(l, p, e);
  }

  /** Lower-casing an avatar URL built from its parts only lower-cases the host. */
  lemma LowerOfParts(p: string, host: string, e: string)
    requires LowerAscii(p) == p && LowerAscii("." + e) == "." + e
    ensures LowerAscii(p + host + "." + e) == p + LowerAscii(host) + ("." + e)
  {
    var c := "." + e;
    assert p + host + "." + e == p + host + c;
    LowerOfThree(p, host, c);
  }

  lemma LowerOfThree(a: string, b: string, c: string)
    requires LowerAscii(a) == a && LowerAscii(c) == c
    ensures LowerAscii(a + b + c) == a + LowerAscii(b) + c
  {
    LowerAsciiAppend(a + b, c);
    LowerAsciiAppend(a, b);
  }

  lemma SchemeThenImageOf(p: string, h: string, e: string)
    requires h != "" && NoLineBreak(h)
    ensures SchemeThenImage(p + h + ("." + e), p, e)
  {
    var l := p + h + ("." + e);
    assert l[..|p|] == p;
    assert l[|l| - |e| - 1..] == "." + e;
    assert l[|p|..|l| - |e| - 1] == h;
  }

  /** Another scheme is refused. */
  lemma AvatarOtherSchemeRefused()
    ensures !MatchesAvatarPattern("ftp://a.png")
  {
    OtherFirstLetterRefused("ftp://a.png");
  }

  /** A URL whose first letter is not an 'h', in either case, names no accepted scheme. */
  lemma OtherFirstLetterRefused(s: string)
    requires |s| > 0 && LowerChar(s[0]) != 'h'
    ensures !MatchesAvatarPattern(s)
  {
    var l := LowerAscii(s);
    forall p, e | p in Schemes && e in ImageExtensions
      ensures !SchemeThenImage(l, p, e)
    {
      assert p[0] == 'h';
      FirstCharDecides(l, p, e);
    }
  }

  lemma FirstCharDecides(l: string, p: string, e: string)
    requires |l| > 0 && |p| > 0 && l[0] != p[0]
    ensures !SchemeThenImage(l, p, e)
  {
    if |p| <= |l| {
      assert l[..|p|][0] == l[0];
    }
  }

  /**
   * The alias rule: three UTF-16 code units at least, then only
   * `[a-zA-Z0-9_]`; "" gets the length message.
   */
  function AliasError(value: string): (e: string)
    ensures e == "" <==> JsLength(value) >= 3 && AuthRules.AllWordChars(value)
    ensures value != "" ==> e == AuthRules.ValidateAlias(value)
    ensures value == "" ==> e == AliasTooShort
  {
    if JsLength(value) < 3 then AliasTooShort
    else if !AuthRules.AllWordChars(value) then AliasCharset
    else ""
  }

  /**
   * The birthdate rule: an empty value passes; otherwise it must read as a date
   * (`parse` stands for `new Date(text)`) whose year difference with today is
   * 18 to 120.
   */
  function BirthdateError(value: string, today: Date, parse: string -> Option<Date>): (e: string)
    ensures e == "" <==> value == "" || (parse(value).Some? && 18 <= YearDifference(parse(value).value, today) <= 120)
    ensures value != "" && parse(value).None? ==> e == BadDate
    ensures value != "" && parse(value).Some? && YearDifference(parse(value).value, today) < 18 ==> e == TooYoung
  {
    if value == "" then ""
    else match parse(value)
      case None => BadDate
      case Some(d) =>
        var age := YearDifference(d, today);
        if age < 18 then TooYoung else if age > 120 then BadAge else ""
  }

  /**
   * The description rule: at most 500 UTF-16 code units, so 250 characters
   * always pass and 501 never do.
   */
  function DescriptionError(value: string): (e: string)
    ensures e == "" <==> JsLength(value) <= 500
    ensures |value| <= 250 ==> e == ""
    ensures |value| > 500 ==> e == DescriptionTooLong
  {
    if JsLength(value) > 500 then DescriptionTooLong else ""
  }

  /** The avatar rule: empty, or an image URL matching the pattern. */
  function AvatarError(value: string): (e: string)
    ensures e == "" <==> value == "" || MatchesAvatarPattern(value)
  {
    if value != "" && !MatchesAvatarPattern(value) then BadAvatar else ""
  }

  /** `validateField` for a text value: the rule of the field; the other fields never fail. */
  function FieldError(f: ProfileField, value: string, today: Date, parse: string -> Option<Date>): (e: string)
    ensures f in {PaysField, LangueField, PronousField, IsPublicField} ==> e == ""
  {
    match f
    case AliasField => AliasError(value)
    case BirthdateField => BirthdateError(value, today, parse)
    case DescriptionField => DescriptionError(value)
    case AvatarField => AvatarError(value)
    case _ => ""
  }

  /** An alias the rules accept is never blank, so the later "alias required" check cannot fire. */
  lemma AcceptedAliasNotBlank(alias: string)
    requires AliasError(alias) == ""
    ensures Trim(alias) != ""
  {
    AuthRules.AcceptedAliasIsTrimmed(alias);
  }

  // ---------------------------------------------------------------- form data and payload

  datatype ProfileData = ProfileData(
    alias: string, birthdate: string, pays: string, langue: string,
    description: string, avatar: string, pronous: string, isPublic: bool)

  const EmptyProfile := ProfileData("", "", "", "", "", "", "", false)

  /** The text held for a field (`is_public` holds no text). */
  function TextOf(d: ProfileData, f: ProfileField): string {
    match f
    case AliasField => d.alias
    case BirthdateField => d.birthdate
    case PaysField => d.pays
    case LangueField => d.langue
    case DescriptionField => d.description
    case AvatarField => d.avatar
    case PronousField => d.pronous
    case IsPublicField => ""
  }

  /** `{ ...prev, [field]: value }` for a text field. */
  function SetText(d: ProfileData, f: ProfileField, v: string): (r: ProfileData)
    requires f != IsPublicField
    ensures TextOf(r, f) == v && r.isPublic == d.isPublic
    ensures forall g :: g != f ==> TextOf(r, g) == TextOf(d, g)
  {
    match f
    case AliasField => d.(alias := v)
    case BirthdateField => d.(birthdate := v)
    case PaysField => d.(pays := v)
    case LangueField => d.(langue := v)
    case DescriptionField => d.(description := v)
    case AvatarField => d.(avatar := v)
    case PronousField => d.(pronous := v)
  }

  /** `if (x?.trim()) data.x = x.trim()`: the trimmed text, when it is not blank. */
  function Kept(s: string): (r: Option<string>)
    ensures r.Some? <==> !Blank(s)
    ensures r.Some? ==> r.value == Trim(s) && r.value != ""
  {
    if Trim(s) != "" then Some(Trim(s)) else None
  }

  /** `dataToUpdate`: every non-blank text field, trimmed, and `is_public` always. */
  function BuildPayload(d: ProfileData): (u: ProfileService.ProfileUpdate)
    ensures u.alias == Kept(d.alias) && u.birthdate == Kept(d.birthdate) && u.pays == Kept(d.pays)
    ensures u.langue == Kept(d.langue) && u.description == Kept(d.description)
    ensures u.avatar == Kept(d.avatar) && u.pronous == Kept(d.pronous)
    ensures u.isPublic == Some(d.isPublic)
  {
    ProfileService.ProfileUpdate(Kept(d.alias), Kept(d.birthdate), Kept(d.pays), Kept(d.langue),
                                 Kept(d.description), Kept(d.pronous), Kept(d.avatar), Some(d.isPublic))
  }

  /** The body the payload would be sent as: `is_public` always, a text key exactly when the field is not blank. */
  lemma PayloadBody(d: ProfileData)
    ensures var body := ProfileService.UpdateBody(BuildPayload(d));
            "is_public" in body && body["is_public"] == Bool(d.isPublic)
            && ("alias" in body <==> !Blank(d.alias))
            && ("description" in body <==> !Blank(d.description))
            && ("alias" in body ==> body["alias"] == Str(Trim(d.alias)))
  {
  }

  /** Reading a field of the signed-in user: `user.x`. */
  function UserField(u: ApiService.Fetched, k: string): Option<Json> {
    match u
    case Raw(v) => if v.Null? then None else Prop(v, k)
    case Combined(r) =>
      if k == "alias" then r.alias
      else if k == "birthdate" then r.birthdate
      else if k == "pays" then r.pays
      else if k == "langue" then r.langue
      else if k == "description" then r.description
      else if k == "avatar" then r.avatar
      else if k == "pronous" then r.pronous
      else if k == "is_public" then r.isPublic
      else if k == "id" then r.id
      else if k == "email" then r.email
      else None
  }

  function FromUser(u: ApiService.Fetched): ProfileData {
    ProfileData(TextOr(UserField(u, "alias")), TextOr(UserField(u, "birthdate")), TextOr(UserField(u, "pays")),
                TextOr(UserField(u, "langue")), TextOr(UserField(u, "description")), TextOr(UserField(u, "avatar")),
                TextOr(UserField(u, "pronous")), Present(UserField(u, "is_public")))
  }

  /** How a submit ends. */
  datatype SubmitOutcome =
    | FixErrors        // "Veuillez corriger les erreurs dans le formulaire"
    | AliasRequired    // "L'alias est requis"
    | UnexpectedError  // "Une erreur inattendue est survenue"

  const SubmitFields: seq<ProfileField> := [AliasField, BirthdateField, DescriptionField, AvatarField]

  predicate SubmitValid(d: ProfileData, today: Date, parse: string -> Option<Date>) {
    forall i :: 0 <= i < |SubmitFields| ==> FieldError(SubmitFields[i], TextOf(d, SubmitFields[i]), today, parse) == ""
  }

  /** Every submitted field shows its own message under it. */
  predicate ErrorsShown(errors: map<ProfileField, string>, d: ProfileData, today: Date, parse: string -> Option<Date>) {
    forall i :: 0 <= i < |SubmitFields| ==>
      SubmitFields[i] in errors && errors[SubmitFields[i]] == FieldError(SubmitFields[i], TextOf(d, SubmitFields[i]), today, parse)
  }

  /** The messages of the fields that are not submitted are as they were. */
  predicate OthersKept(before: map<ProfileField, string>, after: map<ProfileField, string>) {
    forall f :: f !in SubmitFields ==> (f in after <==> f in before) && (f in after ==> after[f] == before[f])
  }

  // ---------------------------------------------------------------- the hook's state

  class ProfileFormState {
    var formData: ProfileData
    var errors: map<ProfileField, string>
    var loading: bool
    var selected: seq<string>

    constructor ()
      ensures formData == EmptyProfile && errors == map[] && !loading && selected == []
    {
      formData := EmptyProfile;
      errors := map[];
      loading := false;
      selected := [];
    }

    /** `validateField`: stores the field's message, and only that one; true iff it is "". */
    method ValidateField(f: ProfileField, value: string, today: Date, parse: string -> Option<Date>) returns (ok: bool)
      modifies this
      ensures errors == old(errors)[f := FieldError(f, value, today, parse)]
      ensures ok <==> errors[f] == ""
      ensures formData == old(formData) && selected == old(selected) && loading == old(loading)
    {
      var e := FieldError(f, value, today, parse);
      errors := errors[f := e];
      ok := e == "";
    }

    /** `updateFormData` with text: sets the field and validates it. */
    method UpdateText(f: ProfileField, value: string, today: Date, parse: string -> Option<Date>)
      requires f != IsPublicField
      modifies this
      ensures formData == SetText(old(formData), f, value)
      ensures errors == old(errors)[f := FieldError(f, value, today, parse)]
      ensures selected == old(selected) && loading == old(loading)
    {
      formData := SetText(formData, f, value);
      var _ := ValidateField(f, value, today, parse);
    }

    /** `updateFormData("is_public", b)`: a boolean is stored and not validated. */
    method UpdateVisibility(b: bool)
      modifies this
      ensures formData == old(formData).(isPublic := b)
      ensures errors == old(errors) && selected == old(selected) && loading == old(loading)
    {
      formData := formData.(isPublic := b);
    }

    /** `selectCountry`: the country's code becomes `pays`. */
    method SelectCountry(country: Entry, today: Date, parse: string -> Option<Date>)
      modifies this
      ensures formData == old(formData).(pays := country.code)
      ensures errors == old(errors)[PaysField := ""] && selected == old(selected) && loading == old(loading)
    {
      UpdateText(PaysField, country.code, today, parse);
    }

    /** `selectPronouns`. */
    method SelectPronouns(p: string, today: Date, parse: string -> Option<Date>)
      modifies this
      ensures formData == old(formData).(pronous := p)
      ensures errors == old(errors)[PronousField := ""] && selected == old(selected) && loading == old(loading)
    {
      UpdateText(PronousField, p, today, parse);
    }

    /** `toggleLanguage`: the selection is toggled and `langue` becomes its ", " join. */
    method ToggleLanguage(c: string, today: Date, parse: string -> Option<Date>)
      modifies this
      ensures selected == Toggle(old(selected), c)
      ensures c in selected <==> c !in old(selected)
      ensures formData == old(formData).(langue := Join(selected, ", "))
      ensures errors == old(errors)[LangueField := ""] && loading == old(loading)
    {
      selected := Toggle(selected, c);
      UpdateText(LangueField, Join(selected, ", "), today, parse);
    }

    /**
     * The effect run when the signed-in user changes: the form is filled from
     * the user, and a non-empty `langue` is split on ", " into the selection.
     */
    method LoadFromUser(user: Option<ApiService.Fetched>)
      modifies this
      ensures !ApiService.Usable(user) ==> formData == old(formData) && selected == old(selected)
      ensures ApiService.Usable(user) ==> formData == FromUser(user.value)
      ensures ApiService.Usable(user) && formData.langue != "" ==> selected == NonEmpty(Split(formData.langue, ", "))
      ensures ApiService.Usable(user) && formData.langue == "" ==> selected == old(selected)
      ensures errors == old(errors) && loading == old(loading)
    {
      if ApiService.Usable(user) {
        formData := FromUser(user.value);
        if formData.langue != "" {
          selected := NonEmpty(Split(formData.langue, ", "));
        }
      }
    }

    /** The loop of `handleSubmit`: each of alias, birthdate, description and avatar is validated in turn. */
    method ValidateSubmitFields(today: Date, parse: string -> Option<Date>) returns (hasErrors: bool)
      modifies this
      ensures hasErrors <==> !SubmitValid(formData, today, parse)
      ensures ErrorsShown(errors, formData, today, parse)
      ensures OthersKept(old(errors), errors)
      ensures formData == old(formData) && selected == old(selected) && loading == old(loading)
    {
      var fields := SubmitFields;
      hasErrors := false;
      ghost var seen: set<ProfileField> := {};
      var i := 0;
      while i < |fields|
        invariant 0 <= i <= |fields|
        invariant formData == old(formData) && selected == old(selected) && loading == old(loading)
        invariant hasErrors <==> exists j :: 0 <= j < i && FieldError(fields[j], TextOf(formData, fields[j]), today, parse) != ""
        invariant forall j :: 0 <= j < i ==>
                    fields[j] in errors && errors[fields[j]] == FieldError(fields[j], TextOf(formData, fields[j]), today, parse)
        invariant forall f :: f in seen ==> f in fields
        invariant forall f :: f !in seen ==> (f in errors <==> f in old(errors)) && (f in errors ==> errors[f] == old(errors)[f])
      {
        var ok := ValidateField(fields[i], TextOf(formData, fields[i]), today, parse);
        if !ok {
          hasErrors := true;
        }
        seen := seen + {fields[i]};
        i := i + 1;
      }
    }

    /**
     * What `handleSubmit` does once every field is accepted: a blank alias is
     * refused with an alert; otherwise the payload is built and the session's
     * `updateProfile` is called. The session provider does not define it, so
     * the call throws and the unexpected-error alert is shown. Loading ends false.
     */
    method SubmitAccepted() returns (outcome: SubmitOutcome, payload: Option<ProfileService.ProfileUpdate>)
      modifies this
      ensures Trim(formData.alias) == "" ==> outcome == AliasRequired && payload.None? && loading == old(loading)
      ensures Trim(formData.alias) != "" ==> outcome == UnexpectedError && payload == Some(BuildPayload(old(formData))) && !loading
      ensures formData == old(formData) && selected == old(selected) && errors == old(errors)
    {
      if Trim(formData.alias) == "" {
        outcome, payload := AliasRequired, None;
        return;
      }
      var d := formData;
      loading := true;
      payload := Some(BuildPayload(d));
      outcome := UnexpectedError;
      loading := false;
    }

    /** `handleSubmit`: on any field error nothing is sent; otherwise the update is attempted. */
    method HandleSubmit(today: Date, parse: string -> Option<Date>) returns (outcome: SubmitOutcome, payload: Option<ProfileService.ProfileUpdate>)
      modifies this
      ensures outcome == FixErrors <==> !SubmitValid(formData, today, parse)
      ensures outcome != AliasRequired
      ensures ErrorsShown(errors, formData, today, parse)
      ensures OthersKept(old(errors), errors)
      ensures outcome == FixErrors ==> payload.None? && loading == old(loading)
      ensures outcome == UnexpectedError ==> payload == Some(BuildPayload(formData)) && !loading
      ensures formData == old(formData) && selected == old(selected)
    {
      var hasErrors := ValidateSubmitFields(today, parse);
      if hasErrors {
        outcome, payload := FixErrors, None;
      } else {
        assert FieldError(SubmitFields[0], TextOf(formData, SubmitFields[0]), today, parse) == "";
        AcceptedAliasNotBlank(formData.alias);
        outcome, payload := SubmitAccepted();
      }
    }
  }
}
