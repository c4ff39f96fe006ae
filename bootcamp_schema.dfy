/**
 * The Bootcamp schema: which documents Mongoose accepts and the message each
 * rejected path reports. The two address patterns (web and e-mail) are
 * regular expressions and come in as predicates.
 */
module BootcampSchema {
  import opened Wrappers
  import opened JsText
  import opened Mongoose

  /** A bootcamp as given to the model; `None` is an undefined path. */
  datatype Bootcamp = Bootcamp(
    name: Option<string>,
    slug: Option<string>,
    description: Option<string>,
    website: Option<string>,
    phone: Option<string>,
    email: Option<string>,
    address: Option<string>)

  const NameRules: seq<Rule> := [
    Required(Some("Please add a name")),
    MinLength(5, "Name cannot be less than 5 characters."),
    MaxLength(50, "Name cannot be more than 50 characters.")]

  const DescriptionRules: seq<Rule> := [
    Required(Some("Please add a description")),
    MinLength(5, "A description cannot be less than 5 characters."),
    MaxLength(500, "A description cannot be more than 500 characters.")]

  function WebsiteRules(isWebAddress: string -> bool): seq<Rule> {
    [Match(isWebAddress, "Please enter a valid web address.")]
  }

  const PhoneRules: seq<Rule> := [
    MinLength(8, "A phone no. cannot be less than 8 characters."),
    MaxLength(20, "A phone no. cannot be longer than 20 characters.")]

  function EmailRules(isEmail: string -> bool): seq<Rule> {
    [Match(isEmail, "Please add a valid email address")]
  }

  const AddressRules: seq<Rule> := [Required(Some("Please add an address"))]

  /** `trim: true` on `name`: a given name is stored trimmed; every other path is stored as given. */
  function Normalise(b: Bootcamp): (r: Bootcamp)
    ensures r.(name := b.name) == b
    ensures b.name.None? <==> r.name.None?
    ensures r.name.Some? ==> r.name.value == Trim(b.name.value)
  {
    b.(name := if b.name.Some? then Some(Trim(b.name.value)) else None)
  }

  /** Each path's outcome, in schema order. */
  function Outcomes(b: Bootcamp, isWebAddress: string -> bool, isEmail: string -> bool): seq<(string, Option<string>)> {
    [ ("name", FirstFailure("name", NameRules, b.name)),
      ("description", FirstFailure("description", DescriptionRules, b.description)),
      ("website", FirstFailure("website", WebsiteRules(isWebAddress), b.website)),
      ("phone", FirstFailure("phone", PhoneRules, b.phone)),
      ("email", FirstFailure("email", EmailRules(isEmail), b.email)),
      ("address", FirstFailure("address", AddressRules, b.address)) ]
  }

  /** The validation errors of a stored bootcamp. */
  function Errors(b: Bootcamp, isWebAddress: string -> bool, isEmail: string -> bool): seq<FieldError> {
    Collect(Outcomes(b, isWebAddress, isEmail))
  }

  predicate LengthBetween(s: string, lo: nat, hi: nat) {
    lo <= Utf16Length(s) <= hi
  }

  /**
   * A valid stored bootcamp: a name of 5 to 50 and a description of 5 to
   * 500 characters, a non-empty address; a phone, when given, of 8 to 20
   * characters; a web address and an e-mail address, when given and not
   * empty, that fit their patterns. The slug is not checked.
   */
  predicate Valid(b: Bootcamp, isWebAddress: string -> bool, isEmail: string -> bool) {
    && b.name.Some? && LengthBetween(b.name.value, 5, 50)
    && b.description.Some? && LengthBetween(b.description.value, 5, 500)
    && (b.website.None? || b.website.value == [] || isWebAddress(b.website.value))
    && (b.phone.None? || LengthBetween(b.phone.value, 8, 20))
    && (b.email.None? || b.email.value == [] || isEmail(b.email.value))
    && b.address.Some? && b.address.value != []
  }

  /**
   * The name's error, on the stored (trimmed) name: a missing or empty name
   * is reported as missing, then a short and then a long one; within the
   * bounds there is none.
   */
  lemma {:induction false} NameError(n: Option<string>)
    ensures FirstFailure("name", NameRules, n) ==
      if n.None? || n.value == [] then Some("Please add a name")
      else if Utf16Length(n.value) < 5 then Some("Name cannot be less than 5 characters.")
      else if Utf16Length(n.value) > 50 then Some("Name cannot be more than 50 characters.")
      else None
  {
    FirstFailureThree("name", NameRules[0], NameRules[1], NameRules[2], n);
  }

  lemma {:induction false} DescriptionError(d: Option<string>)
    ensures FirstFailure("description", DescriptionRules, d) ==
      if d.None? || d.value == [] then Some("Please add a description")
      else if Utf16Length(d.value) < 5 then Some("A description cannot be less than 5 characters.")
      else if Utf16Length(d.value) > 500 then Some("A description cannot be more than 500 characters.")
      else None
  {
    FirstFailureThree("description", DescriptionRules[0], DescriptionRules[1], DescriptionRules[2], d);
  }

  /** A phone, when given, must be 8 to 20 characters long; an empty one is too short. */
  lemma {:induction false} PhoneError(p: Option<string>)
    ensures FirstFailure("phone", PhoneRules, p) ==
      if p.None? then None
      else if Utf16Length(p.value) < 8 then Some("A phone no. cannot be less than 8 characters.")
      else if Utf16Length(p.value) > 20 then Some("A phone no. cannot be longer than 20 characters.")
      else None
  {
    FirstFailureTwo("phone", PhoneRules[0], PhoneRules[1], p);
  }

  /** A web or e-mail address is checked against its pattern only when it is a non-empty string. */
  lemma {:induction false} AddressPatternErrors(w: Option<string>, e: Option<string>, isWebAddress: string -> bool, isEmail: string -> bool)
    ensures FirstFailure("website", WebsiteRules(isWebAddress), w) ==
      if w.None? || w.value == [] || isWebAddress(w.value) then None else Some("Please enter a valid web address.")
    ensures FirstFailure("email", EmailRules(isEmail), e) ==
      if e.None? || e.value == [] || isEmail(e.value) then None else Some("Please add a valid email address")
  {
    FirstFailureOne("website", Match(isWebAddress, "Please enter a valid web address."), w);
    FirstFailureOne("email", Match(isEmail, "Please add a valid email address"), e);
  }

  lemma {:induction false} AddressError(a: Option<string>)
    ensures FirstFailure("address", AddressRules, a) ==
      if a.None? || a.value == [] then Some("Please add an address") else None
  {
    FirstFailureOne("address", AddressRules[0], a);
  }

  /** Mongoose reports no error exactly for the valid bootcamps. */
  lemma {:induction false} ValidIff(b: Bootcamp, isWebAddress: string -> bool, isEmail: string -> bool)
    ensures Errors(b, isWebAddress, isEmail) == [] <==> Valid(b, isWebAddress, isEmail)
  {
    NoOutcomeFails(b, isWebAddress, isEmail);
    NameError(b.name);
    DescriptionError(b.description);
    AddressPatternErrors(b.website, b.email, isWebAddress, isEmail);
    PhoneError(b.phone);
    AddressError(b.address);
  }

  lemma {:induction false} NoOutcomeFails(b: Bootcamp, isWebAddress: string -> bool, isEmail: string -> bool)
    ensures Errors(b, isWebAddress, isEmail) == [] <==>
      && FirstFailure("name", NameRules, b.name).None?
      && FirstFailure("description", DescriptionRules, b.description).None?
      && FirstFailure("website", WebsiteRules(isWebAddress), b.website).None?
      && FirstFailure("phone", PhoneRules, b.phone).None?
      && FirstFailure("email", EmailRules(isEmail), b.email).None?
      && FirstFailure("address", AddressRules, b.address).None?
  {
    var outcomes := Outcomes(b, isWebAddress, isEmail);
    CollectEmpty(outcomes);
    assert (forall i :: 0 <= i < |outcomes| ==> outcomes[i].1.None?) <==>
      && outcomes[0].1.None? && outcomes[1].1.None? && outcomes[2].1.None?
      && outcomes[3].1.None? && outcomes[4].1.None? && outcomes[5].1.None?;
  }

  /** Storing a stored bootcamp again changes nothing. */
  lemma {:induction false} NormaliseIdempotent(b: Bootcamp)
    ensures Normalise(Normalise(b)) == Normalise(b)
  {
    if b.name.Some? {
      TrimIdempotent(b.name.value);
    }
  }

  /** A name of white space only is stored empty and reported as missing. */
  lemma {:induction false} BlankNameMissing(b: Bootcamp, isWebAddress: string -> bool, isEmail: string -> bool)
    requires b.name.Some? && forall i :: 0 <= i < |b.name.value| ==> IsSpace(b.name.value[i])
    ensures FieldError("name", "Please add a name") in Errors(Normalise(b), isWebAddress, isEmail)
  {
    TrimBlank(b.name.value);
    NameError(Normalise(b).name);
    var outcomes := Outcomes(Normalise(b), isWebAddress, isEmail);
    assert outcomes[0] == ("name", Some("Please add a name"));
    CollectMembers(outcomes, FieldError("name", "Please add a name"));
  }

  /** The description is not trimmed: five spaces are a description of five characters. */
  lemma {:induction false} DescriptionNotTrimmed(b: Bootcamp)
    requires b.description == Some("     ")
    ensures FirstFailure("description", DescriptionRules, Normalise(b).description) == None
  {
    DescriptionError(Normalise(b).description);
    assert Utf16Length("     ") == 5;
  }

  /** The slug plays no part in validation. */
  lemma {:induction false} SlugUnchecked(b: Bootcamp, slug: Option<string>, isWebAddress: string -> bool, isEmail: string -> bool)
    ensures Errors(b.(slug := slug), isWebAddress, isEmail) == Errors(b, isWebAddress, isEmail)
  {
    assert Outcomes(b.(slug := slug), isWebAddress, isEmail) == Outcomes(b, isWebAddress, isEmail);
  }

  /** A missing address is always reported, with its own message. */
  lemma {:induction false} AddressRequired(b: Bootcamp, isWebAddress: string -> bool, isEmail: string -> bool)
    requires b.address.None? || b.address.value == []
    ensures FieldError("address", "Please add an address") in Errors(b, isWebAddress, isEmail)
  {
    var outcomes := Outcomes(b, isWebAddress, isEmail);
    AddressError(b.address);
    assert outcomes[5] == ("address", Some("Please add an address"));
    CollectMembers(outcomes, FieldError("address", "Please add an address"));
  }
}
