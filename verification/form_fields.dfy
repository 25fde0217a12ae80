/**
 * The `handleChange` rule shared by the registration form and the profile
 * form: the VAT number is stored upper-cased, every other field verbatim.
 */
module FormFields {
  import opened Js

  const VatField := "vatNumber"

  /** The value a text input's change event stores under `name`. */
  function StoredInput(name: string, value: string): (r: string)
    ensures |r| == |value|
    ensures name == VatField ==> r == ToUpperCase(value)
    ensures name != VatField ==> r == value
    ensures forall i | 0 <= i < |r| :: r[i] == value[i] || (name == VatField && 'a' <= value[i] <= 'z')
  {
    if name == VatField then ToUpperCase(value) else value
  }

  /** `{...formData, [name]: StoredInput(name, value)}`: one key set, every other key unchanged. */
  function ChangeField(formData: map<string, Value>, name: string, value: string): (r: map<string, Value>)
    ensures r.Keys == formData.Keys + {name}
    ensures r[name] == Text(StoredInput(name, value))
    ensures forall k | k in formData && k != name :: r[k] == formData[k]
  {
    formData[name := Text(StoredInput(name, value))]
  }
}
