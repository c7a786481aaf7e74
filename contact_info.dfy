/**
 * Contact details of a directory entry (pkg/models/db/db_contact_info.go):
 * the closed set of contact types and the checks the create and update
 * hooks run before a row is written.
 */
module ContactInfo {

  import opened Wrappers
  import opened Strings

  /** The contact types; Go's `ContactType` is a string, so any string can reach the checks. */
  const Phone := "phone"
  const Email := "email"
  const Fax := "fax"
  const Address := "address"
  const LinkedIn := "linkedin"
  const Twitter := "twitter"
  const Other := "other"

  /** A contact row; `kind` is the `Type` column. */
  datatype Contact = Contact(kind: string, description: string, value: string, directoryEntryId: string)

  /** The errors the hooks report. */
  datatype ContactError = InvalidType(kind: string) | EmptyValue | InvalidEmail | PhoneTooShort

  /** The error's text as `fmt.Errorf` writes it. */
  function Message(e: ContactError): string {
    match e
    case InvalidType(kind) => "invalid contact type: " + kind
    case EmptyValue => "contact value cannot be empty"
    case InvalidEmail => "invalid email format"
    case PhoneTooShort => "phone number too short"
  }

  /** `GetAllContactTypes`: the seven types, each once. */
  function AllContactTypes(): (r: seq<string>)
    ensures |r| == 7
    ensures forall i, j :: 0 <= i < j < |r| ==> r[i] != r[j]
  {
    [Phone, Email, Fax, Address, LinkedIn, Twitter, Other]
  }

  /** `ContactType.IsValid`: the switch over the seven constants, so exactly the listed types. */
  predicate IsValid(kind: string): (r: bool)
    ensures r <==> kind in AllContactTypes()
  {
    kind == Phone || kind == Email || kind == Fax || kind == Address
    || kind == LinkedIn || kind == Twitter || kind == Other
  }

  /** `validateContactValue`: non-empty, and for email an `@`, for phone at least 7 bytes. */
  function ValidateValue(c: Contact): (r: Option<ContactError>)
    ensures c.value == "" ==> r == Some(EmptyValue)
    ensures c.value != "" && c.kind == Email ==> (r.None? <==> '@' in c.value) && (r.Some? ==> r.value == InvalidEmail)
    ensures c.value != "" && c.kind == Phone ==> (r.None? <==> Utf8Len(c.value) >= 7) && (r.Some? ==> r.value == PhoneTooShort)
    ensures c.value != "" && c.kind != Email && c.kind != Phone ==> r.None?
  {
    if c.value == "" then Some(EmptyValue)
    else if c.kind == Email then
      if '@' in c.value then None else Some(InvalidEmail)
    else if c.kind == Phone then
      if Utf8Len(c.value) < 7 then Some(PhoneTooShort) else None
    else None
  }

  /** `BeforeCreate`: the type is checked first, then the value. */
  function BeforeCreate(c: Contact): (r: Option<ContactError>)
    ensures !IsValid(c.kind) ==> r == Some(InvalidType(c.kind))
    ensures IsValid(c.kind) ==> r == ValidateValue(c)
  {
    if !IsValid(c.kind) then Some(InvalidType(c.kind)) else ValidateValue(c)
  }

  /** `BeforeUpdate`: the same checks as on create. */
  function BeforeUpdate(c: Contact): (r: Option<ContactError>)
    ensures r == BeforeCreate(c)
  {
    if !IsValid(c.kind) then Some(InvalidType(c.kind)) else ValidateValue(c)
  }

  /** A row is written exactly when its type is one of the seven and its value passes its type's check. */
  lemma AcceptedIff(c: Contact)
    ensures BeforeCreate(c).None? <==>
              && c.kind in AllContactTypes()
              && c.value != ""
              && (c.kind == Email ==> '@' in c.value)
              && (c.kind == Phone ==> Utf8Len(c.value) >= 7)
  {
  }

  /** An unknown type is reported whatever the value, even an empty one. */
  lemma InvalidTypeReportedFirst(kind: string, description: string, value: string, entry: string)
    requires kind !in AllContactTypes()
    ensures BeforeCreate(Contact(kind, description, value, entry)) == Some(InvalidType(kind))
    ensures BeforeUpdate(Contact(kind, description, value, entry)) == Some(InvalidType(kind))
  {
  }

  /**
   * The phone check counts bytes, not characters: seven characters always
   * pass, and a value under two characters (at most 4 bytes) never does.
   */
  lemma PhoneLengthInBytes(value: string)
    requires value != ""
    ensures |value| >= 7 ==> ValidateValue(Contact(Phone, "", value, "")).None?
    ensures |value| < 2 ==> ValidateValue(Contact(Phone, "", value, "")) == Some(PhoneTooShort)
  {
  }

  /** Three two-byte characters and a one-byte one make a 7-byte phone value of four characters. */
  lemma MultibytePhoneAccepted()
    ensures Utf8Len("ééé1") == 7
    ensures ValidateValue(Contact(Phone, "", "ééé1", "")).None?
  {
    assert Utf8Len("1") == 1;
    assert "ééé1"[1..] == "éé1";
    assert "éé1"[1..] == "é1";
    assert "é1"[1..] == "1";
  }
}
