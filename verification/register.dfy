/**
 * The registration form: field edits (the VAT number upper-cased), the
 * cleaning of the form data into the request payload, and the choice of
 * outcome and error message from the backend's answer.
 */
module Register {
  import opened Js
  import opened FormFields

  const RegisterFields: set<string> :=
    {"name", "surname", "companyName", "vatNumber", "email", "address", "phoneNumber", "password"}

  const NoTokenError := "Registration succeeded but no token returned"
  const DefaultError := "Registration failed due to invalid data."

  /** A value the payload keeps: not null, not undefined, not ''. */
  predicate Kept(v: Value) {
    v != Null && v != Undefined && v != Text("")
  }

  /**
   * The cleaned payload: exactly the keys of `formData` whose value is
   * kept, each with its value unchanged.
   */
  function CleanPayload(formData: map<string, Value>): (r: map<string, Value>)
    ensures r.Keys <= formData.Keys
    ensures forall k | k in formData :: k in r <==> Kept(formData[k])
    ensures forall k | k in r :: r[k] == formData[k]
  {
    map k | k in formData && Kept(formData[k]) :: formData[k]
  }

  /** Cleaning an already cleaned payload changes nothing. */
  lemma CleanPayloadIdempotent(formData: map<string, Value>)
    ensures CleanPayload(CleanPayload(formData)) == CleanPayload(formData)
  {
    var once := CleanPayload(formData);
    assert CleanPayload(once).Keys == once.Keys;
  }

  /**
   * The `reduce` over `Object.keys(formData)` that builds the payload by
   * assigning into an accumulator, one key at a time in `keys` order.
   */
  method ReducePayload(formData: map<string, Value>, keys: seq<string>) returns (acc: map<string, Value>)
    requires forall k :: k in keys <==> k in formData
    ensures acc == CleanPayload(formData)
  {
    acc := map[];
    var i := 0;
    while i < |keys|
      invariant 0 <= i <= |keys|
      invariant acc.Keys <= formData.Keys
      invariant forall k | k in acc :: acc[k] == formData[k] && Kept(formData[k])
      invariant forall j | 0 <= j < i :: Kept(formData[keys[j]]) ==> keys[j] in acc
      invariant forall k | k in acc :: k in keys[..i]
    {
      var key := keys[i];
      var value := formData[key];
      if Kept(value) {
        acc := acc[key := value];
      }
      i := i + 1;
    }
    forall k | k in formData && Kept(formData[k])
      ensures k in acc
    {
      var j :| 0 <= j < |keys| && keys[j] == k;
    }
  }

  /** How `authService.register` settles: the response body, or the value it throws. */
  datatype RegisterReply = Registered(data: Value) | Threw(err: Value)

  /** The message shown for a thrown value: its `message`, else its `error`, else the default. */
  function RegisterErrorMessage(err: Value): (r: Value)
    ensures Truthy(Member(err, "message")) ==> r == Member(err, "message")
    ensures !Truthy(Member(err, "message")) && Truthy(Member(err, "error")) ==> r == Member(err, "error")
    ensures !Truthy(Member(err, "message")) && !Truthy(Member(err, "error")) ==> r == Text(DefaultError)
    ensures Truthy(r)
  {
    Or(Member(err, "message"), Or(Member(err, "error"), Text(DefaultError)))
  }

  class RegisterForm {
    var formData: map<string, Value>
    var error: Value
    var success: bool
    /** The browser's stored 'user' entry. */
    var storedUser: Option<Value>

    /** Every field empty, no message, nothing stored. */
    constructor ()
      ensures formData == map k | k in RegisterFields :: Text("")
      ensures error == Text("") && !success && storedUser.None?
    {
      formData := map k | k in RegisterFields :: Text("");
      error := Text("");
      success := false;
      storedUser := None;
    }

    /** `handleChange`: the named field takes the typed value, upper-cased for the VAT number. */
    method HandleChange(name: string, value: string)
      modifies this`formData
      ensures formData == ChangeField(old(formData), name, value)
    {
      formData := formData[name := Text(StoredInput(name, value))];
    }

    /**
     * `handleSubmit`: sends the payload `ReducePayload` builds over the
     * form's keys (`keys` is `Object.keys(formData)`); a body with a token
     * is stored and marks success, a body without one sets the no-token
     * error, and a thrown value sets `RegisterErrorMessage`.
     */
    method HandleSubmit(keys: seq<string>, reply: RegisterReply) returns (sent: map<string, Value>)
      requires forall k :: k in keys <==> k in formData
      modifies this`error, this`success, this`storedUser
      ensures sent == CleanPayload(formData)
      ensures reply.Registered? && Truthy(Member(reply.data, "token")) ==>
        success && error == Text("") && storedUser == Some(reply.data)
      ensures reply.Registered? && !Truthy(Member(reply.data, "token")) ==>
        !success && error == Text(NoTokenError) && storedUser == old(storedUser)
      ensures reply.Threw? ==>
        !success && error == RegisterErrorMessage(reply.err) && storedUser == old(storedUser)
    {
      error := Text("");
      success := false;
      sent := ReducePayload(formData, keys);
      match reply
      case Registered(data) =>
        if Truthy(Member(data, "token")) {
          storedUser := Some(data);
          success := true;
        } else {
          error := Text(NoTokenError);
        }
      case Threw(err) =>
        error := RegisterErrorMessage(err);
    }
  }
}
