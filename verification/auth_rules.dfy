/**
 * The field rules of the sign-up and sign-in forms (`app/types/auth.ts`): each
 * validator returns the French message shown under the field, or "" when the
 * value is accepted.
 */
module AuthRules {
  import opened Common

  const EmailRequired := "Email requis"
  const EmailInvalid := "Format d'email invalide"
  const PasswordRequired := "Mot de passe requis"
  const PasswordTooShort := "Au moins 6 caractères requis"
  const AliasRequired := "Alias requis"
  const AliasTooShort := "Au moins 3 caractères requis"
  const AliasCharset := "Lettres, chiffres et _ uniquement"

  // ---------------------------------------------------------------- email

  /** `[^\s@]`. */
  predicate EmailChar(c: char) {
    !IsSpace(c) && c != '@'
  }

  predicate AllEmailChars(s: string) {
    forall i :: 0 <= i < |s| ==> EmailChar(s[i])
  }

  /**
   * `/^[^\s@]+@[^\s@]+\.[^\s@]+$/.test(s)`, read literally: a non-empty run, '@',
   * a non-empty run, '.', a non-empty run, each run free of white space and '@'.
   * Backtracking lets the '.' be any dot of the part after '@'.
   */
  predicate MatchesEmailPattern(s: string)
    ensures MatchesEmailPattern(s) ==> 5 <= |s| && EmailChar(s[0]) && EmailChar(s[|s| - 1])
  {
    exists dot | 0 <= dot < |s| ::
      exists at | 0 <= at < dot ::
        0 < at && at + 1 < dot && dot + 1 < |s| && s[at] == '@' && s[dot] == '.'
        && AllEmailChars(s[..at]) && AllEmailChars(s[at + 1..dot]) && AllEmailChars(s[dot + 1..])
  }

  /**
   * What an accepted address looks like: no white space, exactly one '@' with
   * something before it, and a '.' after the '@' that is neither the first
   * character of the domain nor the last character of the address.
   */
  ghost predicate EmailShape(s: string) {
    (forall i :: 0 <= i < |s| ==> !IsSpace(s[i]))
    && exists a :: 0 < a < |s| && s[a] == '@'
         && (forall i :: 0 <= i < |s| && i != a ==> s[i] != '@')
         && (exists k :: a + 1 < k < |s| - 1 && s[k] == '.')
  }

  lemma PatternGivesShape(s: string, at: int, dot: int)
    requires 0 < at && at + 1 < dot && dot + 1 < |s| && s[at] == '@' && s[dot] == '.'
    requires AllEmailChars(s[..at]) && AllEmailChars(s[at + 1..dot]) && AllEmailChars(s[dot + 1..])
    ensures EmailShape(s)
  {
    forall i | 0 <= i < |s|
      ensures !IsSpace(s[i]) && (i != at ==> s[i] != '@')
    {
      if i < at {
        assert s[..at][i] == s[i];
      } else if at < i < dot {
        assert s[at + 1..dot][i - at - 1] == s[i];
      } else if dot < i {
        assert s[dot + 1..][i - dot - 1] == s[i];
      }
    }
    assert at + 1 < dot < |s| - 1 && s[dot] == '.';
  }

  lemma ShapeGivesPattern(s: string)
    requires EmailShape(s)
    ensures MatchesEmailPattern(s)
  {
    var a :| 0 < a < |s| && s[a] == '@'
         && (forall i :: 0 <= i < |s| && i != a ==> s[i] != '@')
         && (exists k :: a + 1 < k < |s| - 1 && s[k] == '.');
    var k :| a + 1 < k < |s| - 1 && s[k] == '.';
    assert AllEmailChars(s[..a]) by {
      forall i | 0 <= i < a ensures EmailChar(s[..a][i]) {
        assert s[..a][i] == s[i];
      }
    }
    var host := s[a + 1..k];
    assert AllEmailChars(host) by {
      forall i | 0 <= i < |host| ensures EmailChar(host[i]) {
        assert host[i] == s[a + 1 + i];
      }
    }
    var tld := s[k + 1..];
    assert AllEmailChars(tld) by {
      forall i | 0 <= i < |tld| ensures EmailChar(tld[i]) {
        assert tld[i] == s[k + 1 + i];
      }
    }
  }

  /** The regular expression accepts exactly the addresses of the stated shape. */
  lemma EmailPatternIffShape(s: string)
    ensures MatchesEmailPattern(s) <==> EmailShape(s)
  {
    if MatchesEmailPattern(s) {
      var dot, at :| 0 <= dot < |s| && 0 <= at < dot
        && 0 < at && at + 1 < dot && dot + 1 < |s| && s[at] == '@' && s[dot] == '.'
        && AllEmailChars(s[..at]) && AllEmailChars(s[at + 1..dot]) && AllEmailChars(s[dot + 1..]);
      PatternGivesShape(s, at, dot);
    }
    if EmailShape(s) {
      ShapeGivesPattern(s);
    }
  }

  /** `validateEmail`. */
  function ValidateEmail(email: string): (r: string)
    ensures r == "" <==> EmailShape(email)
    ensures r == EmailRequired <==> email == ""
    ensures r == "" || r == EmailRequired || r == EmailInvalid
  {
    EmailPatternIffShape(email);
    if email == "" then EmailRequired
    else if !MatchesEmailPattern(email) then EmailInvalid
    else ""
  }

  // ---------------------------------------------------------------- password

  /**
   * `validatePassword`. The length is JavaScript's, in UTF-16 code units: a
   * character outside the Basic Multilingual Plane counts twice.
   */
  function ValidatePassword(password: string): (r: string)
    ensures r == "" <==> JsLength(password) >= 6
    ensures |password| >= 6 ==> r == ""
    ensures |password| < 3 ==> r != ""
    ensures r == PasswordRequired <==> password == ""
    ensures r == "" || r == PasswordRequired || r == PasswordTooShort
  {
    if password == "" then PasswordRequired
    else if JsLength(password) < 6 then PasswordTooShort
    else ""
  }

  // ---------------------------------------------------------------- alias

  /** `[a-zA-Z0-9_]`. */
  predicate WordChar(c: char) {
    ('a' <= c <= 'z') || ('A' <= c <= 'Z') || ('0' <= c <= '9') || c == '_'
  }

  predicate AllWordChars(s: string) {
    forall i :: 0 <= i < |s| ==> WordChar(s[i])
  }

  /**
   * `validateAlias`: the first failing rule in the order required, length (in
   * UTF-16 code units), character set. An accepted alias is plain ASCII, so its
   * length is also its number of characters.
   */
  function ValidateAlias(alias: string): (r: string)
    ensures r == "" <==> JsLength(alias) >= 3 && AllWordChars(alias)
    ensures r == "" ==> |alias| == JsLength(alias) >= 3
    ensures r == AliasRequired <==> alias == ""
    ensures r == AliasTooShort <==> 0 < JsLength(alias) < 3
    ensures r == AliasCharset <==> JsLength(alias) >= 3 && !AllWordChars(alias)
  {
    JsLengthCountsAstral(alias);
    if alias == "" then AliasRequired
    else if JsLength(alias) < 3 then AliasTooShort
    else if !AllWordChars(alias) then AliasCharset
    else ""
  }

  /** An accepted alias has no white space, so trimming leaves it as it is. */
  lemma AcceptedAliasIsTrimmed(alias: string)
    requires ValidateAlias(alias) == ""
    ensures Trim(alias) == alias && Trim(alias) != ""
  {
    assert !IsSpace(alias[0]);
    assert !IsSpace(alias[|alias| - 1]);
  }

  // ---------------------------------------------------------------- sign-up record

  datatype RegisterData = RegisterData(email: string, password: string, alias: string)
  datatype ValidationErrors = ValidationErrors(email: string, password: string, alias: string)

  predicate NoErrors(e: ValidationErrors) {
    e.email == "" && e.password == "" && e.alias == ""
  }

  /** `validateRegisterData`: one message per field, all empty exactly when every field is accepted. */
  function ValidateRegisterData(d: RegisterData): (r: ValidationErrors)
    ensures NoErrors(r) <==> EmailShape(d.email) && JsLength(d.password) >= 6 && JsLength(d.alias) >= 3 && AllWordChars(d.alias)
    ensures r.email == ValidateEmail(d.email) && r.password == ValidatePassword(d.password)
    ensures r.alias == ValidateAlias(d.alias)
  {
    ValidationErrors(ValidateEmail(d.email), ValidatePassword(d.password), ValidateAlias(d.alias))
  }

  /** Two concrete addresses: one accepted, one with the dot right after '@'. */
  lemma EmailExamples()
    ensures ValidateEmail("a@b.co") == ""
    ensures ValidateEmail("a@.co") == EmailInvalid
  {
    var good := "a@b.co";
    assert good[1] == '@' && good[3] == '.';
    PatternGivesShape(good, 1, 3);
    var bad := "a@.co";
    assert !MatchesEmailPattern(bad) by {
      forall dot, at | 0 <= at < dot < |bad| && 0 < at && at + 1 < dot && dot + 1 < |bad| && bad[at] == '@'
        ensures bad[dot] != '.'
      {
      }
    }
  }
}
