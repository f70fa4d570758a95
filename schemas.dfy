/**
 * The request and response shapes (app/schemas.py). Only `ConfigurationCreate`
 * constrains its country code (2 to 3 characters); `requirements` is a list of
 * strings with no length bound, and the update payload carries `requirements` alone.
 * The response shape `Configuration` (id, country_code, requirements) is the row
 * type `Models.Configuration`.
 */
module Schemas {
  import opened Wrappers

  const MinCountryCodeLength: nat := 2
  const MaxCountryCodeLength: nat := 3

  /** `ConfigurationBase`: the fields of a create body before validation. */
  datatype ConfigurationBase = ConfigurationBase(countryCode: string, requirements: seq<string>)

  /** `Field(..., min_length=2, max_length=3)`: the code has two or three characters. */
  function CountryCodeLengthOk(countryCode: string): (ok: bool)
    ensures ok <==> |countryCode| == 2 || |countryCode| == 3
  {
    MinCountryCodeLength <= |countryCode| <= MaxCountryCodeLength
  }

  /** `ConfigurationCreate`: a base body whose country code passed the length check. */
  type ConfigurationCreate = body: ConfigurationBase | CountryCodeLengthOk(body.countryCode)
    witness ConfigurationBase("US", [])

  /** `ConfigurationUpdate`: only the new list; it has no country code to change. */
  datatype ConfigurationUpdate = ConfigurationUpdate(requirements: seq<string>)

  /** The field-constraint failures the country code of a create body can raise. */
  datatype ValidationError =
    | StringTooShort(minLength: nat)
    | StringTooLong(maxLength: nat)

  /** Validation of a create body, as the framework runs it before the handler. */
  function ValidateCreate(body: ConfigurationBase): (r: Result<ConfigurationCreate, ValidationError>)
    ensures r.Ok? <==> 2 <= |body.countryCode| <= 3
    ensures r.Ok? ==> r.value == body
    ensures r.Err? ==> r.error == (if |body.countryCode| < 2 then StringTooShort(2) else StringTooLong(3))
  {
    if |body.countryCode| < MinCountryCodeLength then Err(StringTooShort(MinCountryCodeLength))
    else if |body.countryCode| > MaxCountryCodeLength then Err(StringTooLong(MaxCountryCodeLength))
    else Ok(body)
  }

  /** A create body is accepted with any list of requirements, the empty list included. */
  lemma RequirementsUnconstrained(countryCode: string, requirements: seq<string>)
    ensures ValidateCreate(ConfigurationBase(countryCode, requirements)).Ok?
        <==> ValidateCreate(ConfigurationBase(countryCode, [])).Ok?
  {
  }
}
