/**
 * The profile page: loading the profile into the form with missing fields
 * defaulted, field edits (the VAT number upper-cased), and the
 * password-change form with its ordered checks, request and reset.
 */
module ProfilePage {
  import opened Js
  import opened FormFields

  const ProfileFields: set<string> :=
    {"name", "surname", "companyName", "vatNumber", "email", "address", "phoneNumber"}

  const MismatchError := "Las nuevas contraseñas no coinciden"
  const TooShortError := "La nueva contraseña debe contener al menos 6 caracteres"
  const MinPasswordLength := 6
  const ProfileUpdated := "Perfil actualizado correctamente"
  const UpdateProfileError := "Error updating profile"
  const PasswordChanged := "Contraseña actualizada correctamente"
  const ChangePasswordError := "Error changing password"
  const LoadError := "Error loading profile"

  /**
   * The form built from the profile the backend returned: one entry per
   * profile field, the returned value when it is truthy and '' otherwise.
   */
  function LoadedProfile(data: Value): (r: map<string, Value>)
    ensures r.Keys == ProfileFields
    ensures forall k | k in r :: Truthy(r[k]) || r[k] == Text("")
    ensures forall k | k in r :: Truthy(Member(data, k)) ==> r[k] == Member(data, k)
    ensures forall k | k in r :: !Truthy(Member(data, k)) ==> r[k] == Text("")
  {
    map k | k in ProfileFields :: Or(Member(data, k), Text(""))
  }

  datatype PasswordData = PasswordData(currentPassword: string, newPassword: string, confirmPassword: string)

  /** The body of the change-password request: the current and the new password, nothing else. */
  datatype PasswordChange = PasswordChange(currentPassword: string, newPassword: string)

  datatype Checked = Valid(request: PasswordChange) | Invalid(message: string)

  /**
   * The checks of `handlePasswordSubmit`, in order: the two new passwords
   * must match, then the new one must be at least 6 UTF-16 code units long.
   */
  function CheckPassword(p: PasswordData): (r: Checked)
    ensures p.newPassword != p.confirmPassword ==> r == Invalid(MismatchError)
    ensures p.newPassword == p.confirmPassword && Utf16Length(p.newPassword) < MinPasswordLength ==>
      r == Invalid(TooShortError)
    ensures r.Valid? <==> p.newPassword == p.confirmPassword && Utf16Length(p.newPassword) >= MinPasswordLength
    ensures r.Valid? ==> r.request == PasswordChange(p.currentPassword, p.newPassword)
  {
    if p.newPassword != p.confirmPassword then Invalid(MismatchError)
    else if Utf16Length(p.newPassword) < MinPasswordLength then Invalid(TooShortError)
    else Valid(PasswordChange(p.currentPassword, p.newPassword))
  }

  /** A matching new password of six basic-plane characters passes the checks. */
  lemma SixCharactersAccepted(current: string, password: string)
    requires |password| == 6 && forall i | 0 <= i < 6 :: password[i] <= '\U{FFFF}'
    ensures CheckPassword(PasswordData(current, password, password)).Valid?
  {
  }

  /**
   * A matching new password of three characters outside the Basic
   * Multilingual Plane is six UTF-16 code units long and passes the checks.
   */
  lemma ThreeAstralCharactersAccepted(current: string, password: string)
    requires |password| == 3 && forall i | 0 <= i < 3 :: password[i] > '\U{FFFF}'
    ensures Utf16Length(password) == 6
    ensures CheckPassword(PasswordData(current, password, password)).Valid?
  {
    assert Utf16Length(password[3..]) == 0;
    assert Utf16Length(password[2..]) == 2 + Utf16Length(password[3..]);
    assert Utf16Length(password[1..]) == 2 + Utf16Length(password[2..]);
  }

  /** The password form's change event: the named field takes the value. */
  function SetPasswordField(p: PasswordData, name: string, value: string): (r: PasswordData)
    ensures name == "currentPassword" ==> r == p.(currentPassword := value)
    ensures name == "newPassword" ==> r == p.(newPassword := value)
    ensures name == "confirmPassword" ==> r == p.(confirmPassword := value)
    ensures name !in {"currentPassword", "newPassword", "confirmPassword"} ==> r == p
  {
    if name == "currentPassword" then p.(currentPassword := value)
    else if name == "newPassword" then p.(newPassword := value)
    else if name == "confirmPassword" then p.(confirmPassword := value)
    else p
  }

  class Profile {
    var formData: map<string, Value>
    var passwordData: PasswordData
    var error: Value
    var success: string
    var loading: bool
    var updating: bool
    /** The browser's stored 'user' entry. */
    var storedUser: Option<Value>

    /** The page as mounted: empty fields, loading. */
    constructor ()
      ensures formData == map k | k in ProfileFields :: Text("")
      ensures passwordData == PasswordData("", "", "")
      ensures error == Text("") && success == "" && loading && !updating && storedUser.None?
    {
      formData := map k | k in ProfileFields :: Text("");
      passwordData := PasswordData("", "", "");
      error := Text("");
      success := "";
      loading := true;
      updating := false;
      storedUser := None;
    }

    /**
     * `loadUserProfile`: the returned profile (`reply` is None when the
     * request failed) fills the form with every missing field as ''. A
     * failure, or a null body on which `response.data.name` throws, sets
     * the load error. Loading ends either way.
     */
    method LoadUserProfile(reply: Option<Value>)
      modifies this`formData, this`error, this`loading
      ensures !loading
      ensures reply.Some? && !Nullish(reply.value) ==> formData == LoadedProfile(reply.value) && error == old(error)
      ensures reply.None? || Nullish(reply.value) ==> formData == old(formData) && error == Text(LoadError)
    {
      if reply.Some? && !Nullish(reply.value) {
        formData := LoadedProfile(reply.value);
      } else {
        error := Text(LoadError);
      }
      loading := false;
    }

    /** `handleChange`: the named field takes the typed value, upper-cased for the VAT number. */
    method HandleChange(name: string, value: string)
      modifies this`formData
      ensures formData == ChangeField(old(formData), name, value)
    {
      formData := formData[name := Text(StoredInput(name, value))];
    }

    /**
     * `handleProfileSubmit`: the whole form is sent; an answer carrying a
     * token replaces the stored user, and an answer with a body sets the
     * success message. A null body makes `response.data.token` throw, which
     * lands in the catch with no response, so the default error shows; a
     * failure shows the response body or the default error. `updating` is
     * false once the request ends.
     */
    method HandleProfileSubmit(reply: Reply) returns (sent: map<string, Value>)
      modifies this`error, this`success, this`updating, this`storedUser
      ensures sent == formData && !updating
      ensures reply.Done? && !Nullish(reply.data) ==> success == ProfileUpdated && error == Text("")
      ensures reply.Done? && Truthy(Member(reply.data, "token")) ==> storedUser == Some(reply.data)
      ensures reply.Done? && !Truthy(Member(reply.data, "token")) ==> storedUser == old(storedUser)
      ensures reply.Done? && Nullish(reply.data) ==> success == "" && error == Text(UpdateProfileError)
      ensures reply.Failed? ==>
        success == "" && error == Or(reply.data, Text(UpdateProfileError)) && storedUser == old(storedUser)
    {
      error := Text("");
      success := "";
      updating := true;
      sent := formData;
      match reply {
        case Done(data) =>
          if Nullish(data) {
            error := Text(UpdateProfileError);
          } else {
            if Truthy(Member(data, "token")) {
              storedUser := Some(data);
            }
            success := ProfileUpdated;
          }
        case Failed(data) =>
          error := Or(data, Text(UpdateProfileError));
      }
      updating := false;
    }

    /** `handlePasswordChange`. */
    method HandlePasswordChange(name: string, value: string)
      modifies this`passwordData
      ensures passwordData == SetPasswordField(old(passwordData), name, value)
    {
      passwordData := SetPasswordField(passwordData, name, value);
    }

    /**
     * `handlePasswordSubmit`: clears both messages; a failed check sets its
     * message and sends nothing. Otherwise the request carries the current
     * and new password; on success (`reply.Done?`) the success message is
     * set and all three fields are emptied, on failure the response body or
     * the default error is shown. `updating` is false once a request ends.
     */
    method HandlePasswordSubmit(reply: Reply) returns (sent: Option<PasswordChange>)
      modifies this`error, this`success, this`passwordData, this`updating
      ensures CheckPassword(old(passwordData)).Invalid? ==>
        && sent.None? && error == Text(CheckPassword(old(passwordData)).message) && success == ""
        && passwordData == old(passwordData) && updating == old(updating)
      ensures CheckPassword(old(passwordData)).Valid? ==>
        && sent == Some(PasswordChange(old(passwordData).currentPassword, old(passwordData).newPassword))
        && !updating
      ensures CheckPassword(old(passwordData)).Valid? && reply.Done? ==>
        success == PasswordChanged && error == Text("") && passwordData == PasswordData("", "", "")
      ensures CheckPassword(old(passwordData)).Valid? && reply.Failed? ==>
        && success == "" && error == Or(reply.data, Text(ChangePasswordError))
        && passwordData == old(passwordData)
    {
      error := Text("");
      success := "";
      var checked := CheckPassword(passwordData);
      if checked.Invalid? {
        error := Text(checked.message);
        sent := None;
        return;
      }
      updating := true;
      sent := Some(checked.request);
      match reply {
        case Done(_) =>
          success := PasswordChanged;
          passwordData := PasswordData("", "", "");
        case Failed(data) =>
          error := Or(data, Text(ChangePasswordError));
      }
      updating := false;
    }
  }
}
