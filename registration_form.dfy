/** The registration form component of components/UserRegistrationForm.tsx:
    its validation schema (`formSchema`), the simulated address-suggestion
    service (`fetchAddressSuggestions`), and the handlers that keep the
    selected address, the address input text and the form's `address` value
    in step. */
module RegistrationForm {
  import opened Common
  import opened Text
  import opened Phone

  // ---- records --------------------------------------------------------------

  /** `MapboxAddress`: a suggested address. `labelText` is the source's
      `label` (a reserved word in Dafny). The coordinates are carried, never
      computed with. */
  datatype AddressCandidate = AddressCandidate(
    labelText: string, street: string, city: string, state: string, zipcode: string,
    latitude: real, longitude: real)

  /** The form's `address` value: a required label, every other part
      optional. */
  datatype FormAddress = FormAddress(
    labelText: string, street: Option<string>, city: Option<string>, state: Option<string>,
    zipcode: Option<string>, latitude: Option<real>, longitude: Option<real>)

  datatype FormValues = FormValues(
    firstName: string, lastName: string, email: string, phoneNumber: string, address: FormAddress)

  /** `{ label: '' }` */
  function BlankAddress(): FormAddress {
    FormAddress("", None, None, None, None, None, None)
  }

  /** The `defaultValues` of the form. */
  function DefaultValues(): FormValues {
    FormValues("", "", "", "", BlankAddress())
  }

  /** `form.setValue('address', address)` with a suggested address. */
  function AsFormAddress(a: AddressCandidate): FormAddress {
    FormAddress(a.labelText, Some(a.street), Some(a.city), Some(a.state), Some(a.zipcode), Some(a.latitude), Some(a.longitude))
  }

  // ---- the schema -----------------------------------------------------------

  const FirstNameMessage: string := "First name must be at least 2 characters."
  const LastNameMessage: string := "Last name must be at least 2 characters."
  const EmailMessage: string := "Invalid email address."
  const PhoneMessage: string := "Invalid phone number format."
  const LabelMessage: string := "Address is required"

  /** The fields `formSchema` checks. */
  datatype FormField = FirstName | LastName | Email | PhoneNumber | AddressLabel

  /** The path under which the form reports a field's error. */
  function PathOf(f: FormField): seq<string> {
    match f
    case FirstName => ["firstName"]
    case LastName => ["lastName"]
    case Email => ["email"]
    case PhoneNumber => ["phoneNumber"]
    case AddressLabel => ["address", "label"]
  }

  /** One reported error: the field and its message. */
  datatype FieldIssue = FieldIssue(field: FormField, message: string)

  /** The fields in the order the schema declares them. */
  const SchemaOrder: seq<FormField> := [FirstName, LastName, Email, PhoneNumber, AddressLabel]

  /** The single check each field carries. `isEmail` stands for the
      library's e-mail check. */
  predicate Passes(f: FormField, v: FormValues, isEmail: string -> bool) {
    match f
    case FirstName => |v.firstName| >= 2
    case LastName => |v.lastName| >= 2
    case Email => isEmail(v.email)
    case PhoneNumber => IsPhone(v.phoneNumber)
    case AddressLabel => |v.address.labelText| >= 1
  }

  function Message(f: FormField): string {
    match f
    case FirstName => FirstNameMessage
    case LastName => LastNameMessage
    case Email => EmailMessage
    case PhoneNumber => PhoneMessage
    case AddressLabel => LabelMessage
  }

  /** One issue per failing field of `fields`, in their order. */
  function IssuesOf(fields: seq<FormField>, v: FormValues, isEmail: string -> bool): seq<FieldIssue> {
    if fields == [] then []
    else (if Passes(fields[0], v, isEmail) then [] else [FieldIssue(fields[0], Message(fields[0]))])
         + IssuesOf(fields[1..], v, isEmail)
  }

  /** The issues `formSchema` reports: every failing field, not only the
      first, in schema order. */
  function SchemaIssues(v: FormValues, isEmail: string -> bool): seq<FieldIssue> {
    IssuesOf(SchemaOrder, v, isEmail)
  }

  /** The fields named by a list of issues, in order. */
  function Fields(issues: seq<FieldIssue>): seq<FormField> {
    if issues == [] then [] else [issues[0].field] + Fields(issues[1..])
  }

  /** A field is reported exactly when it is listed and fails. */
  lemma {:induction false} IssuesOfFields(fields: seq<FormField>, v: FormValues, isEmail: string -> bool)
    ensures forall f :: f in Fields(IssuesOf(fields, v, isEmail)) <==> f in fields && !Passes(f, v, isEmail)
  {
    if fields != [] {
      IssuesOfFields(fields[1..], v, isEmail);
      var rest := IssuesOf(fields[1..], v, isEmail);
      assert forall f :: f in fields <==> f == fields[0] || f in fields[1..];
      if !Passes(fields[0], v, isEmail) {
        var head := FieldIssue(fields[0], Message(fields[0]));
        assert IssuesOf(fields, v, isEmail) == [head] + rest;
        assert ([head] + rest)[1..] == rest;
      } else {
        assert IssuesOf(fields, v, isEmail) == rest;
      }
    }
  }

  /** Every issue carries its own field's message. */
  lemma {:induction false} IssuesOfMessages(fields: seq<FormField>, v: FormValues, isEmail: string -> bool)
    ensures forall issue :: issue in IssuesOf(fields, v, isEmail) ==> issue.message == Message(issue.field)
  {
    if fields != [] {
      IssuesOfMessages(fields[1..], v, isEmail);
    }
  }

  /** Distinct fields give distinct reports. */
  lemma {:induction false} IssuesOfDistinct(fields: seq<FormField>, v: FormValues, isEmail: string -> bool)
    requires forall i, j :: 0 <= i < j < |fields| ==> fields[i] != fields[j]
    ensures forall i, j :: 0 <= i < j < |Fields(IssuesOf(fields, v, isEmail))| ==>
      Fields(IssuesOf(fields, v, isEmail))[i] != Fields(IssuesOf(fields, v, isEmail))[j]
  {
    if fields != [] {
      var tail := fields[1..];
      assert forall i, j :: 0 <= i < j < |tail| ==> tail[i] != tail[j] by {
        forall i, j | 0 <= i < j < |tail| ensures tail[i] != tail[j] {
          assert tail[i] == fields[i + 1] && tail[j] == fields[j + 1];
        }
      }
      IssuesOfDistinct(tail, v, isEmail);
      var rest := IssuesOf(tail, v, isEmail);
      if !Passes(fields[0], v, isEmail) {
        IssuesOfFields(tail, v, isEmail);
        var head := FieldIssue(fields[0], Message(fields[0]));
        assert IssuesOf(fields, v, isEmail) == [head] + rest;
        assert ([head] + rest)[1..] == rest;
        assert fields[0] !in tail;
        var fs := [fields[0]] + Fields(rest);
        assert Fields([head] + rest) == fs;
        forall i, j | 0 <= i < j < |fs| ensures fs[i] != fs[j] {
          if i == 0 {
            assert fs[j] == Fields(rest)[j - 1];
            assert fs[j] in Fields(rest);
          } else {
            assert fs[i] == Fields(rest)[i - 1] && fs[j] == Fields(rest)[j - 1];
          }
        }
      } else {
        assert IssuesOf(fields, v, isEmail) == rest;
      }
    }
  }

  lemma {:induction false} FieldsAt(issues: seq<FieldIssue>)
    ensures |Fields(issues)| == |issues|
    ensures forall k :: 0 <= k < |issues| ==> Fields(issues)[k] == issues[k].field
  {
    if issues != [] {
      FieldsAt(issues[1..]);
    }
  }

  /** Each field is reported exactly when its own check fails, at most once,
      with its own message. */
  lemma SchemaIssuesIff(v: FormValues, isEmail: string -> bool)
    ensures var fields := Fields(SchemaIssues(v, isEmail));
      && (FirstName in fields <==> |v.firstName| < 2)
      && (LastName in fields <==> |v.lastName| < 2)
      && (Email in fields <==> !isEmail(v.email))
      && (PhoneNumber in fields <==> !IsPhone(v.phoneNumber))
      && (AddressLabel in fields <==> v.address.labelText == [])
      && (forall i, j :: 0 <= i < j < |fields| ==> fields[i] != fields[j])
    ensures forall issue :: issue in SchemaIssues(v, isEmail) ==> issue.message == Message(issue.field)
  {
    var o := SchemaOrder;
    IssuesOfFields(o, v, isEmail);
    IssuesOfMessages(o, v, isEmail);
    assert forall i, j :: 0 <= i < j < |o| ==> o[i] != o[j];
    IssuesOfDistinct(o, v, isEmail);
  }

  /** The label's issue is reported under the nested path
      `["address", "label"]`, and only when the label is empty. */
  lemma LabelIssuePath(v: FormValues, isEmail: string -> bool)
    ensures v.address.labelText == [] <==>
      exists issue :: issue in SchemaIssues(v, isEmail) && PathOf(issue.field) == ["address", "label"]
  {
    var issues := SchemaIssues(v, isEmail);
    IssuesOfFields(SchemaOrder, v, isEmail);
    assert SchemaOrder[4] == AddressLabel;
    FieldsAt(issues);
    if v.address.labelText == [] {
      assert AddressLabel in Fields(issues);
      var k :| 0 <= k < |Fields(issues)| && Fields(issues)[k] == AddressLabel;
      assert issues[k] in issues && PathOf(issues[k].field) == ["address", "label"];
    }
    if exists issue :: issue in SchemaIssues(v, isEmail) && PathOf(issue.field) == ["address", "label"] {
      var issue :| issue in issues && PathOf(issue.field) == ["address", "label"];
      LabelPathOnly(issue.field);
      var k :| 0 <= k < |issues| && issues[k] == issue;
      assert Fields(issues)[k] == AddressLabel;
    }
  }

  lemma LabelPathOnly(f: FormField)
    requires PathOf(f) == ["address", "label"]
    ensures f == AddressLabel
  {
  }

  lemma {:induction false} IssuesOfAgree(fields: seq<FormField>, v: FormValues, w: FormValues, isEmail: string -> bool)
    requires forall f :: Passes(f, v, isEmail) == Passes(f, w, isEmail)
    ensures IssuesOf(fields, v, isEmail) == IssuesOf(fields, w, isEmail)
  {
    if fields != [] {
      IssuesOfAgree(fields[1..], v, w, isEmail);
    }
  }

  /** Only the label of the address is checked: the other parts can be
      anything. */
  lemma AddressPartsOptional(v: FormValues, a: FormAddress, isEmail: string -> bool)
    requires a.labelText == v.address.labelText
    ensures SchemaIssues(v.(address := a), isEmail) == SchemaIssues(v, isEmail)
  {
    IssuesOfAgree(SchemaOrder, v.(address := a), v, isEmail);
  }

  /** `IssuesOf` one field at a time. */
  lemma IssuesOfCons(fields: seq<FormField>, v: FormValues, isEmail: string -> bool)
    requires fields != []
    ensures IssuesOf(fields, v, isEmail) ==
      (if Passes(fields[0], v, isEmail) then [] else [FieldIssue(fields[0], Message(fields[0]))])
      + IssuesOf(fields[1..], v, isEmail)
  {
  }

  /** The record with first name "A", last name "Bo", e-mail "x", phone "123"
      and an empty label fails on exactly four fields, in schema order. */
  lemma SchemaRejectsExample(v: FormValues, isEmail: string -> bool)
    requires v == FormValues("A", "Bo", "x", "123", BlankAddress())
    requires !isEmail("x")
    ensures Fields(SchemaIssues(v, isEmail)) == [FirstName, Email, PhoneNumber, AddressLabel]
  {
    assert !IsPhone(v.phoneNumber);
    var o := SchemaOrder;
    assert !Passes(FirstName, v, isEmail) && Passes(LastName, v, isEmail) && !Passes(Email, v, isEmail);
    assert !Passes(PhoneNumber, v, isEmail) && !Passes(AddressLabel, v, isEmail);
    IssuesOfCons(o, v, isEmail);
    IssuesOfCons(o[1..], v, isEmail);
    IssuesOfCons(o[2..], v, isEmail);
    IssuesOfCons(o[3..], v, isEmail);
    IssuesOfCons(o[4..], v, isEmail);
    assert o[1..][1..] == o[2..] && o[2..][1..] == o[3..] && o[3..][1..] == o[4..] && o[4..][1..] == [];
    var issues := [FieldIssue(FirstName, Message(FirstName)), FieldIssue(Email, Message(Email)),
                   FieldIssue(PhoneNumber, Message(PhoneNumber)), FieldIssue(AddressLabel, Message(AddressLabel))];
    assert SchemaIssues(v, isEmail) == issues;
    FieldsAt(issues);
  }

  /** A well-formed record passes. */
  lemma SchemaAcceptsExample(v: FormValues, isEmail: string -> bool)
    requires v == FormValues("Jane", "Doe", "jane@example.com", "555-1234", BlankAddress().(labelText := "1 Main St"))
    requires isEmail("jane@example.com")
    ensures SchemaIssues(v, isEmail) == []
  {
    PhoneExamples();
    assert forall f :: Passes(f, v, isEmail);
    IssuesOfFields(SchemaOrder, v, isEmail);
  }

  // ---- address suggestions --------------------------------------------------

  /** The three fixed candidates built around the query, before filtering. */
  function Candidates(query: string): seq<AddressCandidate> {
    [ AddressCandidate(query + ", Anytown, CA 12345", query, "Anytown", "CA", "12345", 34.0522, -118.2437),
      AddressCandidate(query + " St, Somecity, CA 67890", query + " St", "Somecity", "CA", "67890", 34.1522, -118.3437),
      AddressCandidate("Apt " + query + ", Othertown, CA 98765", "Apt " + query, "Othertown", "CA", "98765", 34.2522, -118.4437) ]
  }

  /** `.filter(addr => addr.label.toLowerCase().includes(query.toLowerCase()))` */
  function MatchingLabels(candidates: seq<AddressCandidate>, query: string): seq<AddressCandidate> {
    if candidates == [] then []
    else (if Contains(ToLower(candidates[0].labelText), ToLower(query)) then [candidates[0]] else [])
         + MatchingLabels(candidates[1..], query)
  }

  /** `fetchAddressSuggestions`, without its delay. */
  function Suggestions(query: string): seq<AddressCandidate> {
    if query == "" then [] else MatchingLabels(Candidates(query), query)
  }

  /** The filter keeps, in their order and as many times as they occur,
      exactly the candidates whose label contains the query, ignoring case. */
  lemma {:induction false} MatchingLabelsSpec(candidates: seq<AddressCandidate>, query: string)
    ensures |MatchingLabels(candidates, query)| <= |candidates|
    ensures IsSubsequence(MatchingLabels(candidates, query), candidates)
    ensures forall c :: c in MatchingLabels(candidates, query) <==>
      c in candidates && Contains(ToLower(c.labelText), ToLower(query))
    ensures forall c :: multiset(MatchingLabels(candidates, query))[c] ==
                (if Contains(ToLower(c.labelText), ToLower(query)) then multiset(candidates)[c] else 0)
  {
    if candidates != [] {
      MatchingLabelsSpec(candidates[1..], query);
      var rest := MatchingLabels(candidates[1..], query);
      assert candidates == [candidates[0]] + candidates[1..];
      if Contains(ToLower(candidates[0].labelText), ToLower(query)) {
        assert MatchingLabels(candidates, query) == [candidates[0]] + rest;
        assert ([candidates[0]] + rest)[1..] == rest;
      } else {
        assert MatchingLabels(candidates, query) == rest;
        SubsequenceOfTail(rest, candidates);
      }
      assert forall c :: c in candidates <==> c == candidates[0] || c in candidates[1..];
    }
  }

  /** Every candidate's label embeds the query verbatim, so none is filtered
      out. */
  lemma CandidatesMatch(query: string)
    ensures forall c :: c in Candidates(query) ==> Contains(ToLower(c.labelText), ToLower(query))
  {
    var cs := Candidates(query);
    LabelEmbedsQuery([], query, ", Anytown, CA 12345");
    assert [] + query + ", Anytown, CA 12345" == cs[0].labelText;
    LabelEmbedsQuery([], query, " St, Somecity, CA 67890");
    assert [] + query + " St, Somecity, CA 67890" == cs[1].labelText;
    LabelEmbedsQuery("Apt ", query, ", Othertown, CA 98765");
  }

  /** A label built around the query contains it, ignoring case. */
  lemma LabelEmbedsQuery(before: string, query: string, after: string)
    ensures Contains(ToLower(before + query + after), ToLower(query))
  {
    ToLowerAppend(before + query, after);
    ToLowerAppend(before, query);
    ContainsInfix(ToLower(before), ToLower(query), ToLower(after));
  }

  lemma {:induction false} MatchingLabelsKeepsAll(candidates: seq<AddressCandidate>, query: string)
    requires forall c :: c in candidates ==> Contains(ToLower(c.labelText), ToLower(query))
    ensures MatchingLabels(candidates, query) == candidates
  {
    if candidates != [] {
      MatchingLabelsKeepsAll(candidates[1..], query);
    }
  }

  /** An empty query yields no suggestion. */
  lemma SuggestionsOfEmpty()
    ensures Suggestions("") == []
  {
  }

  /** A non-empty query yields the three candidates in their fixed order
      (Anytown, Somecity, Othertown), and each label contains the query,
      ignoring case. */
  lemma SuggestionsOfQuery(query: string)
    requires query != ""
    ensures Suggestions(query) == Candidates(query)
    ensures |Suggestions(query)| == 3
    ensures Suggestions(query)[0].city == "Anytown" && Suggestions(query)[1].city == "Somecity"
      && Suggestions(query)[2].city == "Othertown"
    ensures forall c :: c in Suggestions(query) ==> Contains(ToLower(c.labelText), ToLower(query))
  {
    CandidatesMatch(query);
    MatchingLabelsKeepsAll(Candidates(query), query);
  }

  // ---- the component ----------------------------------------------------------

  class UserRegistrationForm {
    var selectedAddress: Option<AddressCandidate>
    var addressInputValue: string
    var values: FormValues

    constructor ()
      ensures selectedAddress == None && addressInputValue == "" && values == DefaultValues()
    {
      selectedAddress := None;
      addressInputValue := "";
      values := DefaultValues();
    }

    /** Selecting a suggestion sets the selection, the form's address and
        the input text together. */
    method HandleAddressSelect(a: AddressCandidate)
      modifies this
      ensures selectedAddress == Some(a)
      ensures values == old(values).(address := AsFormAddress(a))
      ensures addressInputValue == a.labelText
    {
      selectedAddress := Some(a);
      values := values.(address := AsFormAddress(a));
      addressInputValue := a.labelText;
    }

    /** Typing always sets the input text. Past two characters suggestions
        are requested; they are only logged (`logged`) and change no state.
        Clearing the input clears the selection and resets the address;
        other input leaves both as they were. */
    method HandleAddressInputChange(value: string) returns (logged: Option<seq<AddressCandidate>>)
      modifies this
      ensures addressInputValue == value
      ensures logged == if |value| > 2 then Some(Suggestions(value)) else None
      ensures value == "" ==> selectedAddress == None && values == old(values).(address := BlankAddress())
      ensures value != "" ==> selectedAddress == old(selectedAddress) && values == old(values)
    {
      addressInputValue := value;
      logged := None;
      if |value| > 2 {
        var suggestions := Suggestions(value);
        logged := Some(suggestions);
      }
      if value == "" {
        selectedAddress := None;
        values := values.(address := BlankAddress());
      }
    }

    /** The effect on `selectedAddress`, for one run: it runs only when the
        selection changes, and then sets the input text to the selected
        label, if any. Text typed later is not resynced. */
    method SyncSelectedAddress()
      modifies this`addressInputValue
      ensures selectedAddress.Some? ==> addressInputValue == selectedAddress.value.labelText
      ensures selectedAddress.None? ==> addressInputValue == old(addressInputValue)
    {
      if selectedAddress.Some? {
        addressInputValue := selectedAddress.value.labelText;
      }
    }
  }
}
