/**
 * The user schema (src/models/user.js): roles, the e-mail rule, password length,
 * the setters applied before validation, and the pre-save password hook.
 */
module UserModel {
  import opened Wrappers
  import Strings
  import opened Errors

  datatype Role = Customer | Admin

  /** `role` defaults to `customer`. */
  const DefaultRole: Role := Customer

  const AllowedDomains: seq<string> := ["gmail.com", "yahoo.com", "outlook.com", "hotmail.com"]

  const MinPasswordLength: nat := 8

  function RoleName(r: Role): string {
    match r
    case Customer => "customer"
    case Admin => "admin"
  }

  /** The `enum: ["customer", "admin"]` check on a raw role string. */
  function ParseRole(s: string): (r: Option<Role>)
    ensures r.Some? ==> RoleName(r.value) == s
    ensures r.None? ==> s != "customer" && s != "admin"
  {
    if s == "customer" then Some(Customer)
    else if s == "admin" then Some(Admin)
    else None
  }

  lemma RoleRoundTrip(r: Role)
    ensures ParseRole(RoleName(r)) == Some(r)
  {
  }

  /** `value.split("@")[1]`: the text between the first and the second `@`, if there is an `@`. */
  function EmailDomain(value: string): (r: Option<string>)
    ensures r.Some? <==> '@' in value
    ensures r.Some? ==> '@' !in r.value
    ensures r.Some? ==> exists at :: FirstAt(value, at) && DomainAfter(value, at, r.value)
  {
    var parts := Strings.Split(value, '@');
    if |parts| > 1 then
      SecondPiece(value, parts);
      Some(parts[1])
    else None
  }

  /** `at` is the position of the first `@` in `value`. */
  predicate FirstAt(value: string, at: int) {
    0 <= at < |value| && value[at] == '@' && '@' !in value[..at]
  }

  /** `domain` follows position `at` and runs to the next `@` or to the end. */
  predicate DomainAfter(value: string, at: int, domain: string) {
    0 <= at && at + 1 + |domain| <= |value| && value[at + 1..at + 1 + |domain|] == domain
    && (at + 1 + |domain| == |value| || value[at + 1 + |domain|] == '@')
  }

  /** The second piece of a split on `@` starts after the first `@` and ends at the next one or at the end. */
  lemma SecondPiece(value: string, parts: seq<string>)
    requires parts == Strings.Split(value, '@') && |parts| > 1
    ensures FirstAt(value, |parts[0]|) && DomainAfter(value, |parts[0]|, parts[1])
  {
    Strings.JoinSplit(value, '@');
    var tail := parts[1..];
    assert tail[0] == parts[1];
    var rest := if |tail| == 1 then "" else "@" + Strings.Join(tail[1..], "@");
    assert Strings.Join(tail, "@") == parts[1] + rest;
    assert value == parts[0] + "@" + parts[1] + rest;
    assert value[..|parts[0]|] == parts[0];
  }

  /** The e-mail validator: the library's `isEmail` first, then the domain allow-list. */
  predicate EmailAllowed(isEmail: string -> bool, value: string)
    ensures EmailAllowed(isEmail, value) ==> isEmail(value) && '@' in value
    ensures EmailAllowed(isEmail, value) ==> exists at :: FirstAt(value, at) && DomainAfter(value, at, EmailDomain(value).value)
  {
    isEmail(value) && EmailDomain(value).Some? && EmailDomain(value).value in AllowedDomains
  }

  /** For an address with a single `@`, the rule is: `isEmail` holds and the domain is one of the four. */
  lemma EmailAllowedIff(isEmail: string -> bool, local: string, domain: string)
    requires '@' !in local && '@' !in domain
    ensures EmailAllowed(isEmail, local + "@" + domain) <==> isEmail(local + "@" + domain) && domain in AllowedDomains
  {
    Strings.SplitJoin([local, domain], '@');
    assert Strings.Join([local, domain], "@") == local + "@" + domain;
  }

  /** With two `@`, the checked "domain" is the middle piece, not the text after the last `@`. */
  lemma MiddlePieceIsDomain(a: string, b: string, c: string)
    requires '@' !in a && '@' !in b && '@' !in c
    ensures EmailDomain(a + "@" + b + "@" + c) == Some(b)
  {
    Strings.SplitJoin([a, b, c], '@');
    assert [a, b, c][1..] == [b, c];
    assert [b, c][1..] == [c];
    assert Strings.Join([b, c], "@") == b + "@" + c;
    assert Strings.Join([a, b, c], "@") == a + "@" + b + "@" + c;
  }

  /** The `lowercase` and `trim` setters of `email`. */
  function NormalizeEmail(raw: string): (r: string)
    ensures r == Strings.ToLower(Strings.Trim(raw))
  {
    Strings.LowerTrimCommute(raw);
    Strings.Trim(Strings.ToLower(raw))
  }

  /** The `minlength: 8` validator of `password`. */
  predicate PasswordLongEnough(password: string) {
    |password| >= MinPasswordLength
  }

  /** A stored user. */
  datatype User = User(name: string, email: string, password: string, phone: string, role: Role, refreshToken: Option<string>)

  /** The raw fields of a new user document before casting; `None` is a missing field. */
  datatype UserDraft = UserDraft(name: Option<string>, email: Option<string>, password: Option<string>, phone: Option<string>, role: Option<string>)

  function NameFailures(name: Option<string>): (r: seq<FieldError>)
    ensures r == [] <==> name.Some? && Strings.Trim(name.value) != ""
  {
    if name.None? || Strings.Trim(name.value) == "" then [FieldError("name", "Please enter your name")] else []
  }

  function EmailFailures(email: Option<string>, isEmail: string -> bool): (r: seq<FieldError>)
    ensures r == [] <==> email.Some? && NormalizeEmail(email.value) != "" && EmailAllowed(isEmail, NormalizeEmail(email.value))
  {
    if !Truthy(email) || NormalizeEmail(email.value) == "" then [FieldError("email", "Please enter your email")]
    else if !EmailAllowed(isEmail, NormalizeEmail(email.value)) then [FieldError("email", "Please enter a valid email with an allowed domain")]
    else []
  }

  function PasswordFailures(password: Option<string>): (r: seq<FieldError>)
    ensures r == [] <==> password.Some? && PasswordLongEnough(password.value)
  {
    if !Truthy(password) then [FieldError("password", "Password is required")]
    else if !PasswordLongEnough(password.value) then [FieldError("password", "Password must be at least 8 characters")]
    else []
  }

  function PhoneFailures(phone: Option<string>, isMobilePhone: string -> bool): (r: seq<FieldError>)
    ensures r == [] <==> phone.Some? && phone.value != "" && isMobilePhone(phone.value)
  {
    if !Truthy(phone) then [FieldError("phone", "Phone number is required")]
    else if !isMobilePhone(phone.value) then [FieldError("phone", "Please enter a valid phone number")]
    else []
  }

  function RoleFailures(role: Option<string>): (r: seq<FieldError>)
    ensures r == [] <==> (role.Some? ==> ParseRole(role.value).Some?)
  {
    if role.Some? && ParseRole(role.value).None? then [FieldError("role", EnumMessage(role.value, "role"))] else []
  }

  /**
   * The schema's validators over a draft, after the setters, in path order; each path
   * reports its first failing validator. A draft passes exactly when every path's rule holds.
   */
  function ValidateUser(d: UserDraft, isEmail: string -> bool, isMobilePhone: string -> bool): (r: seq<FieldError>)
    ensures r == [] <==>
      && d.name.Some? && Strings.Trim(d.name.value) != ""
      && d.email.Some? && NormalizeEmail(d.email.value) != "" && EmailAllowed(isEmail, NormalizeEmail(d.email.value))
      && d.password.Some? && PasswordLongEnough(d.password.value)
      && d.phone.Some? && d.phone.value != "" && isMobilePhone(d.phone.value)
      && (d.role.Some? ==> ParseRole(d.role.value).Some?)
  {
    var name := NameFailures(d.name);
    var email := EmailFailures(d.email, isEmail);
    var password := PasswordFailures(d.password);
    var phone := PhoneFailures(d.phone, isMobilePhone);
    var role := RoleFailures(d.role);
    var r := name + email + password + phone + role;
    assert |r| == |name| + |email| + |password| + |phone| + |role|;
    r
  }

  /** The document a valid draft becomes: setters applied, `role` defaulted, no refresh token. */
  function NewUser(d: UserDraft, isEmail: string -> bool, isMobilePhone: string -> bool): (u: User)
    requires ValidateUser(d, isEmail, isMobilePhone) == []
    ensures u.name == Strings.Trim(d.name.value) && u.email == NormalizeEmail(d.email.value)
    ensures u.password == d.password.value && u.phone == d.phone.value
    ensures d.role.None? ==> u.role == DefaultRole
    ensures d.role.Some? ==> RoleName(u.role) == d.role.value
    ensures u.refreshToken.None?
    ensures EmailAllowed(isEmail, u.email) && PasswordLongEnough(u.password)
  {
    User(
      Strings.Trim(d.name.value), NormalizeEmail(d.email.value), d.password.value, d.phone.value,
      if d.role.Some? then ParseRole(d.role.value).value else DefaultRole,
      None)
  }

  /**
   * A user document in memory, with Mongoose's record of whether `password` was
   * modified since the last save.
   */
  class UserDocument {
    var name: string
    var email: string
    var password: string
    var phone: string
    var role: Role
    var refreshToken: Option<string>
    var passwordModified: bool

    function Record(): User
      reads this
    {
      User(name, email, password, phone, role, refreshToken)
    }

    /** A document built from values: every path, `password` included, counts as modified. */
    constructor (u: User)
      ensures Record() == u && passwordModified
    {
      name, email, password, phone, role, refreshToken := u.name, u.email, u.password, u.phone, u.role, u.refreshToken;
      passwordModified := true;
    }

    /** Assigning `password` marks it modified. */
    method SetPassword(p: string)
      modifies this
      ensures Record() == old(Record()).(password := p) && passwordModified
    {
      password := p;
      passwordModified := true;
    }

    /** Assigning `name` goes through the `trim` setter and leaves `password` alone. */
    method SetName(n: string)
      modifies this
      ensures Record() == old(Record()).(name := Strings.Trim(n))
      ensures passwordModified == old(passwordModified)
    {
      name := Strings.Trim(n);
    }

    /**
     * `save()`: the pre-save hook replaces `password` by its bcrypt digest only when it was
     * modified (`digest` is what bcrypt returns for the current password); afterwards
     * nothing counts as modified.
     */
    method Save(digest: string)
      modifies this
      ensures password == (if old(passwordModified) then digest else old(password))
      ensures Record() == old(Record()).(password := password)
      ensures !passwordModified
    {
      if passwordModified {
        password := digest;
      }
      passwordModified := false;
    }
  }

  /** Saving twice hashes once: the second save keeps the digest the first one stored. */
  method SaveTwice(doc: UserDocument, first: string, second: string)
    modifies doc
    ensures doc.password == (if old(doc.passwordModified) then first else old(doc.password))
  {
    doc.Save(first);
    doc.Save(second);
  }
}
