/** The registration page of src/app/UserRegistrationForm/page.tsx, a second
    form, different from the component in components/: a flat record of
    five strings, its own schema (`registrationSchema`), a one-field change
    handler, and a submit handler that turns the schema's issues into a map
    from field name to message. */
module RegistrationPage {
  import opened Common

  datatype RegistrationData = RegistrationData(
    firstName: string, lastName: string, email: string, phone: string, address: string)

  /** The inputs of the form, by their `name` attribute. */
  datatype Field = FirstNameField | LastNameField | EmailField | PhoneField | AddressField

  /** The `name` attribute of a field, which is also its key in the record
      and in the error map. */
  function Key(f: Field): string {
    match f
    case FirstNameField => "firstName"
    case LastNameField => "lastName"
    case EmailField => "email"
    case PhoneField => "phone"
    case AddressField => "address"
  }

  function Get(d: RegistrationData, f: Field): string {
    match f
    case FirstNameField => d.firstName
    case LastNameField => d.lastName
    case EmailField => d.email
    case PhoneField => d.phone
    case AddressField => d.address
  }

  /** `{ ...prev, [name]: value }` */
  function With(d: RegistrationData, f: Field, value: string): RegistrationData {
    match f
    case FirstNameField => d.(firstName := value)
    case LastNameField => d.(lastName := value)
    case EmailField => d.(email := value)
    case PhoneField => d.(phone := value)
    case AddressField => d.(address := value)
  }

  /** A change writes the named field and leaves every other field as it
      was. */
  lemma WithGet(d: RegistrationData, f: Field, value: string, g: Field)
    ensures Get(With(d, f, value), g) == if g == f then value else Get(d, g)
  {
  }

  lemma KeyInjective(f: Field, g: Field)
    ensures Key(f) == Key(g) ==> f == g
  {
  }

  // ---- the schema -----------------------------------------------------------

  /** The fields in the order the schema declares them. */
  const SchemaOrder: seq<Field> := [FirstNameField, LastNameField, EmailField, PhoneField, AddressField]

  /** The single check each field carries: non-empty names and address, the
      library's e-mail check (`isEmail`), and a phone of at least ten
      characters of any kind. */
  predicate Passes(f: Field, d: RegistrationData, isEmail: string -> bool) {
    match f
    case FirstNameField => |d.firstName| >= 1
    case LastNameField => |d.lastName| >= 1
    case EmailField => isEmail(d.email)
    case PhoneField => |d.phone| >= 10
    case AddressField => |d.address| >= 1
  }

  function Message(f: Field): string {
    match f
    case FirstNameField => "First Name is required"
    case LastNameField => "Last Name is required"
    case EmailField => "Invalid email address"
    case PhoneField => "Phone Number must be at least 10 digits"
    case AddressField => "Address is required"
  }

  /** One issue per failing field of `fields`, in their order, each with the
      one-element path of the field's key. */
  function IssuesOf(fields: seq<Field>, d: RegistrationData, isEmail: string -> bool): seq<Issue> {
    if fields == [] then []
    else (if Passes(fields[0], d, isEmail) then [] else [Issue([Key(fields[0])], Message(fields[0]))])
         + IssuesOf(fields[1..], d, isEmail)
  }

  /** The issues of `registrationSchema.parse`. */
  function SchemaIssues(d: RegistrationData, isEmail: string -> bool): seq<Issue> {
    IssuesOf(SchemaOrder, d, isEmail)
  }

  lemma {:induction false} IssuesOfSpec(fields: seq<Field>, d: RegistrationData, isEmail: string -> bool)
    ensures forall issue :: issue in IssuesOf(fields, d, isEmail) ==>
      exists f :: f in fields && !Passes(f, d, isEmail) && issue == Issue([Key(f)], Message(f))
    ensures forall f :: f in fields && !Passes(f, d, isEmail) ==>
      Issue([Key(f)], Message(f)) in IssuesOf(fields, d, isEmail)
  {
    if fields != [] {
      IssuesOfSpec(fields[1..], d, isEmail);
      assert forall f :: f in fields <==> f == fields[0] || f in fields[1..];
    }
  }

  /** The phone check counts characters, not digits. */
  lemma PhoneCountsCharacters(d: RegistrationData, isEmail: string -> bool)
    ensures d.phone == "(555) 123-" ==> Passes(PhoneField, d, isEmail)
    ensures d.phone == "555123456" ==> !Passes(PhoneField, d, isEmail)
  {
  }

  // ---- the error map ----------------------------------------------------------

  /** The issue names `key` as its top-level field (`error.path[0]` is a
      truthy key). */
  predicate Names(issue: Issue, key: string) {
    |issue.path| > 0 && issue.path[0] == key && key != ""
  }

  /** The error map the `forEach` builds: issue by issue, a later issue on
      the same field overwriting an earlier one. */
  function FieldErrors(issues: seq<Issue>): map<string, string> {
    if issues == [] then map[]
    else
      var before := FieldErrors(issues[..|issues| - 1]);
      var last := issues[|issues| - 1];
      if |last.path| > 0 && last.path[0] != "" then before[last.path[0] := last.message] else before
  }

  /** The map has one entry per field some issue names. */
  lemma {:induction false} FieldErrorsKeys(issues: seq<Issue>)
    ensures forall key :: key in FieldErrors(issues) <==> exists i :: 0 <= i < |issues| && Names(issues[i], key)
  {
    if issues != [] {
      var n := |issues| - 1;
      var init := issues[..n];
      FieldErrorsKeys(init);
      assert forall i :: 0 <= i < n ==> init[i] == issues[i];
    }
  }

  /** `issues[i]` is the last issue naming `key`. */
  predicate LastNaming(issues: seq<Issue>, key: string, i: int) {
    && 0 <= i < |issues| && Names(issues[i], key)
    && forall j :: i < j < |issues| ==> !Names(issues[j], key)
  }

  /** Each entry holds the message of the last issue naming that field. */
  lemma {:induction false} FieldErrorsLastWins(issues: seq<Issue>)
    ensures forall key :: key in FieldErrors(issues) ==>
      exists i :: LastNaming(issues, key, i) && FieldErrors(issues)[key] == issues[i].message
  {
    if issues != [] {
      var n := |issues| - 1;
      var init := issues[..n];
      FieldErrorsLastWins(init);
      forall key | key in FieldErrors(issues)
        ensures exists i :: LastNaming(issues, key, i) && FieldErrors(issues)[key] == issues[i].message
      {
        if Names(issues[n], key) {
          assert LastNaming(issues, key, n);
        } else {
          assert key in FieldErrors(init) && FieldErrors(issues)[key] == FieldErrors(init)[key];
          var i :| LastNaming(init, key, i) && FieldErrors(init)[key] == init[i].message;
          LastNamingExtends(issues, key, i);
        }
      }
    }
  }

  lemma LastNamingExtends(issues: seq<Issue>, key: string, i: int)
    requires issues != [] && !Names(issues[|issues| - 1], key)
    requires LastNaming(issues[..|issues| - 1], key, i)
    ensures LastNaming(issues, key, i) && issues[..|issues| - 1][i] == issues[i]
  {
    var init := issues[..|issues| - 1];
    forall j | i < j < |issues| ensures !Names(issues[j], key) {
      if j < |init| { assert init[j] == issues[j]; }
    }
  }

  /** `handleSubmit`'s loop, issue by issue. */
  method CollectFieldErrors(issues: seq<Issue>) returns (fieldErrors: map<string, string>)
    ensures fieldErrors == FieldErrors(issues)
  {
    fieldErrors := map[];
    var n := 0;
    while n < |issues|
      invariant 0 <= n <= |issues|
      invariant fieldErrors == FieldErrors(issues[..n])
    {
      var error := issues[n];
      if |error.path| > 0 && error.path[0] != "" {
        fieldErrors := fieldErrors[error.path[0] := error.message];
      }
      assert issues[..n + 1][..n] == issues[..n];
      n := n + 1;
    }
    assert issues[..n] == issues;
  }

  /** After an invalid submit the error map holds exactly the failing
      fields, each under its key with its own message. */
  lemma SubmitErrors(d: RegistrationData, isEmail: string -> bool)
    ensures var errors := FieldErrors(SchemaIssues(d, isEmail));
      && (forall f :: Key(f) in errors <==> !Passes(f, d, isEmail))
      && (forall f :: Key(f) in errors ==> errors[Key(f)] == Message(f))
      && (forall key :: key in errors ==> exists f :: key == Key(f))
  {
    var issues := SchemaIssues(d, isEmail);
    var errors := FieldErrors(issues);
    IssuesOfSpec(SchemaOrder, d, isEmail);
    FieldErrorsKeys(issues);
    FieldErrorsLastWins(issues);
    forall f: Field ensures f in SchemaOrder {
      match f
      case FirstNameField => assert SchemaOrder[0] == f;
      case LastNameField => assert SchemaOrder[1] == f;
      case EmailField => assert SchemaOrder[2] == f;
      case PhoneField => assert SchemaOrder[3] == f;
      case AddressField => assert SchemaOrder[4] == f;
    }
    forall key | key in errors
      ensures exists f :: key == Key(f) && !Passes(f, d, isEmail) && errors[key] == Message(f)
    {
      var i :| LastNaming(issues, key, i) && errors[key] == issues[i].message;
      assert issues[i] in issues;
      var f :| f in SchemaOrder && !Passes(f, d, isEmail) && issues[i] == Issue([Key(f)], Message(f));
    }
    forall f | !Passes(f, d, isEmail)
      ensures Key(f) in errors
    {
      var issue := Issue([Key(f)], Message(f));
      var i :| 0 <= i < |issues| && issues[i] == issue;
      assert Names(issues[i], Key(f));
    }
    forall f | Key(f) in errors
      ensures !Passes(f, d, isEmail) && errors[Key(f)] == Message(f)
    {
      var g :| Key(f) == Key(g) && !Passes(g, d, isEmail) && errors[Key(f)] == Message(g);
      KeyInjective(f, g);
    }
  }

  /** The same map, field by field, in terms of the record itself: an
      entry exactly for an empty name or address, an e-mail the check
      rejects, or a phone shorter than ten characters. */
  lemma SubmitErrorsByField(d: RegistrationData, isEmail: string -> bool)
    ensures var errors := FieldErrors(SchemaIssues(d, isEmail));
      && ("firstName" in errors <==> d.firstName == "")
      && ("lastName" in errors <==> d.lastName == "")
      && ("email" in errors <==> !isEmail(d.email))
      && ("phone" in errors <==> |d.phone| < 10)
      && ("address" in errors <==> d.address == "")
      && ("phone" in errors ==> errors["phone"] == "Phone Number must be at least 10 digits")
  {
    SubmitErrors(d, isEmail);
    assert Key(FirstNameField) == "firstName" && Key(LastNameField) == "lastName";
    assert Key(EmailField) == "email" && Key(PhoneField) == "phone" && Key(AddressField) == "address";
  }

  // ---- the component ------------------------------------------------------

  class UserRegistrationForm {
    var formData: RegistrationData
    var errors: map<string, string>
    var showMap: bool

    constructor ()
      ensures formData == RegistrationData("", "", "", "", "") && errors == map[] && !showMap
    {
      formData := RegistrationData("", "", "", "", "");
      errors := map[];
      showMap := false;
    }

    /** `handleChange`: writes the field the input names. */
    method HandleChange(f: Field, value: string)
      modifies this`formData
      ensures formData == With(old(formData), f, value)
    {
      formData := With(formData, f, value);
    }

    /** `handleSubmit`: a valid record clears the errors and shows the map;
        an invalid one replaces the errors with those of this submit and
        leaves the map flag alone. The record is never changed. */
    method HandleSubmit(isEmail: string -> bool)
      modifies this`errors, this`showMap
      ensures SchemaIssues(formData, isEmail) == [] ==> errors == map[] && showMap
      ensures SchemaIssues(formData, isEmail) != [] ==>
        errors == FieldErrors(SchemaIssues(formData, isEmail)) && showMap == old(showMap)
    {
      var issues := SchemaIssues(formData, isEmail);
      if issues == [] {
        errors := map[];
        showMap := true;
      } else {
        var fieldErrors := CollectFieldErrors(issues);
        errors := fieldErrors;
      }
    }

    /** `handleBack` only navigates. */
    method HandleBack(browser: Browser)
      modifies browser`route
      ensures browser.route == Some(LoginRoute)
      ensures browser.storedUser == old(browser.storedUser)
    {
      browser.route := Some(LoginRoute);
    }
  }
}
