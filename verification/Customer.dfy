/**
 The canonical customer, its field map, the fingerprint that recognises echoes, and the two
 provider schemas with the mappings between them.

 Field values are JSON values. The model keeps the three forms the five customer fields and the
 deleted flag take: null, a string and a boolean.
 */
module Customers {

  type Source = string
  type Id = string

  datatype Value = Null | Text(text: string) | Flag(on: bool)

  type Fields = map<string, Value>

  // An absent key reads as nil.
  function Get(fields: Fields, key: string): Value {
    if key in fields then fields[key] else Null
  }

  // fmt.Sprint
  function Sprint(v: Value): string {
    match v
    case Null => "<nil>"
    case Text(t) => t
    case Flag(b) => if b then "true" else "false"
  }

  // The coercion both adapters and FromFields use: nil becomes the empty string.
  function Str(v: Value): string {
    if v.Null? then "" else Sprint(v)
  }

  datatype Customer = Customer(firstName: string, lastName: string, email: string, phone: string, company: string)

  function FieldsOf(c: Customer): Fields {
    map["first_name" := Text(c.firstName), "last_name" := Text(c.lastName), "email" := Text(c.email),
        "phone" := Text(c.phone), "company" := Text(c.company)]
  }

  function FromFields(fields: Fields): Customer {
    Customer(Str(Get(fields, "first_name")), Str(Get(fields, "last_name")), Str(Get(fields, "email")),
             Str(Get(fields, "phone")), Str(Get(fields, "company")))
  }

  // The five names are distinct, so nothing is lost on the way through the field map.
  lemma FieldsRoundTrip(c: Customer)
    ensures FromFields(FieldsOf(c)) == c
  {
    var f := FieldsOf(c);
    assert f["company"] == Text(c.company) && f["phone"] == Text(c.phone);
    assert f["email"] == Text(c.email) && f["last_name"] == Text(c.lastName);
    assert f["first_name"] == Text(c.firstName);
  }

  // ---- Fingerprint ------------------------------------------------------------------------------

  // What the fingerprint hashes. The hash itself is taken to be collision free, so this stands for
  // the fingerprint.
  function Fingerprint(c: Customer): string {
    "first_name=" + c.firstName + "|" +
    ("last_name=" + c.lastName + "|" +
     ("email=" + c.email + "|" +
      ("phone=" + c.phone + "|" + ("company=" + c.company))))
  }

  // ---- Provider schemas -------------------------------------------------------------------------

  datatype Kind = Salesforce | HubSpot

  function FirstNameKey(k: Kind): string { if k.Salesforce? then "first_name" else "firstName" }
  function LastNameKey(k: Kind): string { if k.Salesforce? then "last_name" else "lastName" }
  function EmailKey(k: Kind): string { if k.Salesforce? then "email" else "emailAddress" }
  function PhoneKey(k: Kind): string { if k.Salesforce? then "phone" else "phoneNumber" }
  function CompanyKey(k: Kind): string { if k.Salesforce? then "company" else "organization" }

  predicate Present(data: Fields, key: string) {
    !Get(data, key).Null? && Sprint(Get(data, key)) != ""
  }

  predicate Validate(k: Kind, data: Fields) {
    Present(data, FirstNameKey(k)) && Present(data, LastNameKey(k)) && Present(data, EmailKey(k))
  }

  function Normalize(k: Kind, data: Fields): Customer {
    Customer(Str(Get(data, FirstNameKey(k))), Str(Get(data, LastNameKey(k))), Str(Get(data, EmailKey(k))),
             Str(Get(data, PhoneKey(k))), Str(Get(data, CompanyKey(k))))
  }

  function Denormalize(k: Kind, c: Customer): Fields {
    map[FirstNameKey(k) := Text(c.firstName), LastNameKey(k) := Text(c.lastName), EmailKey(k) := Text(c.email),
        PhoneKey(k) := Text(c.phone), CompanyKey(k) := Text(c.company), "deleted" := Flag(false)]
  }

  lemma KeysDistinct(k: Kind)
    ensures FirstNameKey(k) !in {LastNameKey(k), EmailKey(k), PhoneKey(k), CompanyKey(k), "deleted"}
    ensures LastNameKey(k) !in {EmailKey(k), PhoneKey(k), CompanyKey(k), "deleted"}
    ensures EmailKey(k) !in {PhoneKey(k), CompanyKey(k), "deleted"}
    ensures PhoneKey(k) !in {CompanyKey(k), "deleted"} && CompanyKey(k) != "deleted"
  {
    var f, l, e, p, c := FirstNameKey(k), LastNameKey(k), EmailKey(k), PhoneKey(k), CompanyKey(k);
    assert f[0] == 'f' && l[0] == 'l' && e[0] == 'e' && p[0] == 'p' && "deleted"[0] == 'd';
    assert c[0] == 'c' || c[0] == 'o';
  }

  // Writing a customer over any record a provider holds, and reading it back, gives the same
  // customer: the mappings of each adapter are inverse on all five fields and no stale value of
  // the record shows through.
  lemma AdapterRoundTrip(k: Kind, c: Customer, data: Fields)
    ensures Normalize(k, data + Denormalize(k, c)) == c
  {
    KeysDistinct(k);
    var d := Denormalize(k, c);
    assert d[CompanyKey(k)] == Text(c.company) && d[PhoneKey(k)] == Text(c.phone);
    assert d[EmailKey(k)] == Text(c.email) && d[LastNameKey(k)] == Text(c.lastName);
    assert d[FirstNameKey(k)] == Text(c.firstName);
  }

  lemma AdapterInverse(k: Kind, c: Customer)
    ensures Normalize(k, Denormalize(k, c)) == c
  {
    AdapterRoundTrip(k, c, map[]);
    assert map[] + Denormalize(k, c) == Denormalize(k, c);
  }

  // A customer whose first name, last name and email are set is accepted by either schema.
  lemma DenormalizedIsValid(k: Kind, c: Customer, data: Fields)
    ensures Validate(k, data + Denormalize(k, c)) <==> c.firstName != "" && c.lastName != "" && c.email != ""
  {
    KeysDistinct(k);
    var d := Denormalize(k, c);
    assert d[EmailKey(k)] == Text(c.email) && d[LastNameKey(k)] == Text(c.lastName);
    assert d[FirstNameKey(k)] == Text(c.firstName);
  }
}
