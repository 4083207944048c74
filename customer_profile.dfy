/** The customer profile form (frontend/src/features/customer/pages/Profile/CustomerProfile.js):
    the field-change handler that clears the state when the country changes, the
    form built from a loaded profile, and the country and state lookup tables. The
    form is an object of string fields, modelled as a map from key to value. */
module CustomerProfile {
  import opened Common

  type Form = map<string, string>

  /** The form's five fields. */
  const FormKeys: set<string> := {"name", "email", "profilePicture", "country", "state"}

  /** The initial form: every field empty. */
  const InitialForm: Form := map["name" := "", "email" := "", "profilePicture" := "", "country" := "", "state" := ""]

  /** handleChange: `{ ...prev, [name]: value, ...(name === 'country' && { state: '' }) }`. */
  function HandleChange(form: Form, name: string, value: string): (r: Form)
    ensures r.Keys == form.Keys + {name} + (if name == "country" then {"state"} else {})
    ensures name != "state" ==> r[name] == value
    ensures forall k :: k in form && k != name && k != "state" ==> r[k] == form[k]
    ensures name == "country" ==> r["state"] == ""
    ensures name != "country" && name != "state" && "state" in form ==> r["state"] == form["state"]
    ensures name == "state" ==> r["state"] == value
  {
    var r := form[name := value];
    if name == "country" then r["state" := ""] else r
  }

  /** Making the same change twice is making it once. */
  lemma HandleChangeIdempotent(form: Form, name: string, value: string)
    ensures HandleChange(HandleChange(form, name, value), name, value) == HandleChange(form, name, value)
  {
  }

  /** The form built from a loaded profile: each field is the profile's value, or '' when the
      profile lacks it (`profile.x || ''`). */
  function FormFromProfile(profile: map<string, string>): (r: Form)
    ensures r.Keys == FormKeys
    ensures forall k :: k in FormKeys && k !in profile ==> r[k] == ""
    ensures forall k :: k in FormKeys && k in profile ==> r[k] == profile[k]
  {
    map k | k in FormKeys :: if k in profile then profile[k] else ""
  }

  /** An empty profile loads as the initial form. */
  lemma EmptyProfileGivesInitialForm()
    ensures FormFromProfile(map[]) == InitialForm
  {
  }

  /** The country table: code and display name. */
  const Countries: seq<(string, string)> := [("US", "United States"), ("CA", "Canada"), ("UK", "United Kingdom")]

  /** `countries.find(c => c.code === code)?.name`: the first name listed for the code. */
  function CountryName(table: seq<(string, string)>, code: string): (r: Option<string>)
    ensures r.None? <==> forall k :: 0 <= k < |table| ==> table[k].0 != code
    ensures r.Some? ==> exists k :: 0 <= k < |table| && table[k] == (code, r.value)
  {
    if table == [] then None
    else if table[0].0 == code then Some(table[0].1)
    else
      var r := CountryName(table[1..], code);
      assert r.Some? ==> table[1..][0] == table[1];
      r
  }

  /** The country line of the profile view: 'Not provided' for an empty code, the country's
      name for a known code, nothing for an unknown one. */
  function CountryDisplay(code: string): (r: Option<string>)
    ensures code == "" ==> r == Some("Not provided")
    ensures code != "" ==> r == CountryName(Countries, code)
  {
    if code == "" then Some("Not provided") else CountryName(Countries, code)
  }

  /** Each of the three codes shows its own name, and no other code shows a name. */
  lemma CountryDisplayTable(code: string)
    ensures CountryDisplay("US") == Some("United States")
    ensures CountryDisplay("CA") == Some("Canada")
    ensures CountryDisplay("UK") == Some("United Kingdom")
    ensures code !in {"", "US", "CA", "UK"} ==> CountryDisplay(code).None?
  {
  }

  /** `statesByCountry[country]`: the states the state menu offers for a country. */
  function StatesOf(country: string): (r: seq<string>)
    ensures r != [] <==> country in {"US", "CA", "UK"}
  {
    if country == "US" then ["California", "New York", "Texas"]
    else if country == "CA" then ["Ontario", "Quebec", "British Columbia"]
    else if country == "UK" then ["England", "Scotland", "Wales"]
    else []
  }

  /** The chosen state is empty or one the chosen country offers. */
  ghost predicate StateMatchesCountry(form: Form) {
    "state" in form && "country" in form && (form["state"] == "" || form["state"] in StatesOf(form["country"]))
  }

  /** Changes made through the menus keep the state consistent with the country: a country
      change clears the state, and the state menu offers only the chosen country's states.
      Changes to the other fields do not touch either. */
  lemma ChangeKeepsStateMatchingCountry(form: Form, name: string, value: string)
    requires StateMatchesCountry(form)
    requires name == "state" ==> value in StatesOf(form["country"])
    ensures StateMatchesCountry(HandleChange(form, name, value))
  {
  }
}
