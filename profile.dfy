/** The profile page: the profile loaded from and saved to the stored user
    and settings objects, the password-change form and the avatar initials. */
module Profile {
  import opened Wrappers
  import opened StoredJson
  import Text

  datatype ProfileData = ProfileData(
    name: string,
    email: string,
    profilePicture: string,
    defaultCurrency: string,
    comparisonCountry: string,
    plan: string, // 'Free' or 'Premium'
    isPromoterActive: bool)

  /** The state before the load effect runs. */
  const InitialProfile := ProfileData("", "", "", "USD", "US", "Free", false)

  /** The load effect once a stored user exists; missing settings read as `{}`.
      Every field falls back on its own: a stored settings object without a
      key loads that key's default. */
  function LoadedProfile(user: Object, settings: Option<Object>): (p: ProfileData)
    ensures p.name == StringOr(Field(user, "name"), "") && p.email == StringOr(Field(user, "email"), "")
    ensures settings.None? ==>
              p == InitialProfile.(name := StringOr(Field(user, "name"), ""),
                                   email := StringOr(Field(user, "email"), ""))
    ensures settings.Some? ==>
              p.profilePicture == StringOr(Field(settings.value, "profilePicture"), "")
              && p.defaultCurrency == StringOr(Field(settings.value, "defaultCurrency"), "USD")
              && p.comparisonCountry == StringOr(Field(settings.value, "comparisonCountry"), "US")
              && p.plan == StringOr(Field(settings.value, "plan"), "Free")
              && p.isPromoterActive == Truthy(Field(settings.value, "isPromoterActive"))
    ensures settings.Some? && "defaultCurrency" !in settings.value ==> p.defaultCurrency == "USD"
    ensures settings.Some? && "comparisonCountry" !in settings.value ==> p.comparisonCountry == "US"
    ensures settings.Some? && "plan" !in settings.value ==> p.plan == "Free"
    ensures settings.Some? && "isPromoterActive" !in settings.value ==> !p.isPromoterActive
  {
    var s := settings.GetOr(map[]);
    ProfileData(
      StringOr(Field(user, "name"), ""),
      StringOr(Field(user, "email"), ""),
      StringOr(Field(s, "profilePicture"), ""),
      StringOr(Field(s, "defaultCurrency"), "USD"),
      StringOr(Field(s, "comparisonCountry"), "US"),
      StringOr(Field(s, "plan"), "Free"),
      Truthy(Field(s, "isPromoterActive")))
  }

  /** `handleSaveProfile`, the user object: the stored user (or `{}`) with its
      name and email overwritten and every other field kept. */
  function SavedUser(storedUser: Option<Object>, p: ProfileData): (u: Object)
    ensures "name" in u && u["name"] == Str(p.name)
    ensures "email" in u && u["email"] == Str(p.email)
    ensures forall k :: k != "name" && k != "email" ==>
              (k in u <==> storedUser.Some? && k in storedUser.value)
              && (k in u ==> u[k] == storedUser.value[k])
  {
    storedUser.GetOr(map[])["name" := Str(p.name)]["email" := Str(p.email)]
  }

  const SettingsKeys: set<string> :=
    {"profilePicture", "defaultCurrency", "comparisonCountry", "plan", "isPromoterActive"}

  /** `handleSaveProfile`, the settings object: built afresh from exactly five
      fields, so any other stored setting (such as `participateInClub`) is
      dropped. */
  function SavedSettings(p: ProfileData): (s: Object)
    ensures s.Keys == SettingsKeys
    ensures "participateInClub" !in s
  {
    map["profilePicture" := Str(p.profilePicture),
        "defaultCurrency" := Str(p.defaultCurrency),
        "comparisonCountry" := Str(p.comparisonCountry),
        "plan" := Str(p.plan),
        "isPromoterActive" := Bool(p.isPromoterActive)]
  }

  /** Saving and loading again gives back the profile exactly when none of
      the fields with a default is empty (an empty one comes back as its
      default). */
  lemma SaveLoadRoundTrip(storedUser: Option<Object>, p: ProfileData)
    ensures LoadedProfile(SavedUser(storedUser, p), Some(SavedSettings(p))) == p
        <==> p.defaultCurrency != "" && p.comparisonCountry != "" && p.plan != ""
  {
    var q := LoadedProfile(SavedUser(storedUser, p), Some(SavedSettings(p)));
    if p.defaultCurrency == "" {
      assert q.defaultCurrency == "USD";
    }
    if p.comparisonCountry == "" {
      assert q.comparisonCountry == "US";
    }
    if p.plan == "" {
      assert q.plan == "Free";
    }
  }

  datatype PasswordOutcome = MissingField | Mismatch | TooShort | Changed

  /** The checks of `handleChangePassword`, in their order: any empty field,
      then the new password and its confirmation differing, then a new
      password shorter than six characters. */
  function ScreenPassword(current: string, proposed: string, confirm: string): (o: PasswordOutcome)
    ensures o == MissingField <==> current == "" || proposed == "" || confirm == ""
    ensures o == Mismatch <==> current != "" && proposed != "" && confirm != "" && proposed != confirm
    ensures o == TooShort <==> current != "" && proposed != "" && proposed == confirm && |proposed| < 6
    ensures o == Changed <==> current != "" && proposed == confirm && |proposed| >= 6
  {
    if current == "" || proposed == "" || confirm == "" then MissingField
    else if proposed != confirm then Mismatch
    else if |proposed| < 6 then TooShort
    else Changed
  }

  /** `userInitials`: the upper-cased first character of every piece of the
      name split at spaces; empty pieces add nothing. */
  function UserInitials(name: string): (r: string)
    ensures r == Text.ToUpper(Text.WordStarts(name, true))
    ensures ' ' !in name ==> r == (if |name| > 0 then [Text.UpperChar(name[0])] else "")
  {
    Text.InitialsAreWordStarts(name);
    assert ' ' !in name ==> Text.WordStarts(name, true) == (if |name| > 0 then [name[0]] else "") by {
      if ' ' !in name {
        Text.WordStartsOfPiece(name, true);
      }
    }
    Text.Initials(name)
  }

  /** The page state. */
  class ProfilePage {
    var profile: ProfileData
    var currentPassword: string
    var newPassword: string
    var confirmPassword: string

    constructor()
      ensures profile == InitialProfile
      ensures currentPassword == "" && newPassword == "" && confirmPassword == ""
    {
      profile := InitialProfile;
      currentPassword, newPassword, confirmPassword := "", "", "";
    }

    /** The load effect: without a stored user nothing changes. */
    method Load(storedUser: Option<Object>, storedSettings: Option<Object>)
      modifies this
      ensures storedUser.None? ==> profile == old(profile)
      ensures storedUser.Some? ==> profile == LoadedProfile(storedUser.value, storedSettings)
      ensures currentPassword == old(currentPassword) && newPassword == old(newPassword)
              && confirmPassword == old(confirmPassword)
    {
      if storedUser.Some? {
        profile := LoadedProfile(storedUser.value, storedSettings);
      }
    }

    /** The three password fields. */
    method SetPasswords(current: string, proposed: string, confirm: string)
      modifies this
      ensures currentPassword == current && newPassword == proposed && confirmPassword == confirm
      ensures profile == old(profile)
    {
      currentPassword, newPassword, confirmPassword := current, proposed, confirm;
    }

    /** `handleChangePassword`: a rejected change leaves the fields as they
        were; an accepted one clears all three. */
    method ChangePassword() returns (outcome: PasswordOutcome)
      modifies this
      ensures outcome == ScreenPassword(old(currentPassword), old(newPassword), old(confirmPassword))
      ensures outcome == Changed ==> currentPassword == "" && newPassword == "" && confirmPassword == ""
      ensures outcome != Changed ==>
                currentPassword == old(currentPassword) && newPassword == old(newPassword)
                && confirmPassword == old(confirmPassword)
      ensures profile == old(profile)
    {
      outcome := ScreenPassword(currentPassword, newPassword, confirmPassword);
      if outcome == Changed {
        currentPassword, newPassword, confirmPassword := "", "", "";
      }
    }
  }
}
