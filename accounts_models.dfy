/** The account rules of accounts/models.py: the avatar size limit, the phone
    number pattern, the user manager's argument checks and the User record. */
module Accounts {
  import opened Values

  // ----- avatar -----

  /** Largest avatar accepted, in bytes. */
  const AvatarSizeLimit := 2000000
  const AvatarTooLarge := "Avatar image must be up to 2MB."

  /** An uploaded image; a file field is truthy when it has a name. */
  datatype Avatar = Avatar(name: string, size: int)

  /** validate_avatar: raises for a present file over the limit, otherwise
      hands the value back unchanged. */
  function ValidateAvatar(value: Option<Avatar>): (r: Result<Option<Avatar>>)
    ensures r.Raised? <==> value.Some? && value.value.name != "" && value.value.size > AvatarSizeLimit
    ensures r.Raised? ==> r.message == AvatarTooLarge
    ensures r.Ok? ==> r.value == value
  {
    if value.Some? && value.value.name != "" && value.value.size > AvatarSizeLimit
    then Raised(AvatarTooLarge)
    else Ok(value)
  }

  // ----- phone number: ^(\+98|0)?9\d{9}$ -----

  /** The part after the optional prefix: "9", nine digits, then the end of
      the string or, as Python's `$` allows, one final newline. */
  predicate MatchesAfterPrefix(s: string)
  {
    && |s| >= 10
    && s[0] == '9'
    && AllDigits(s[1..10])
    && (|s| == 10 || (|s| == 11 && s[10] == '\n'))
  }

  /** The phone validator's regular expression, tried as the regex engine
      tries it: the prefix "+98", then "0", then none. */
  predicate MatchesPhonePattern(s: string)
    ensures MatchesPhonePattern(s) ==> 10 <= |s| <= 14
  {
    || (|s| >= 3 && s[..3] == "+98" && MatchesAfterPrefix(s[3..]))
    || (|s| >= 1 && s[0] == '0' && MatchesAfterPrefix(s[1..]))
    || MatchesAfterPrefix(s)
  }

  predicate IsPhonePrefix(p: string)
  {
    p == "" || p == "+98" || p == "0"
  }

  /** s is the prefix p, then "9", then the nine digits d, optionally
      followed by the one newline that `$` tolerates. */
  predicate PhoneShape(s: string, p: string, d: string)
  {
    && IsPhonePrefix(p)
    && |d| == 9 && AllDigits(d)
    && (s == p + "9" + d || s == p + "9" + d + "\n")
  }

  /** The matcher accepts exactly the strings of the documented shape. */
  lemma PhonePatternShape(s: string)
    ensures MatchesPhonePattern(s) <==> exists p, d :: PhoneShape(s, p, d)
  {
    if MatchesPhonePattern(s) {
      if |s| >= 3 && s[..3] == "+98" && MatchesAfterPrefix(s[3..]) {
        ShapeFromMatch(s, "+98");
      } else if |s| >= 1 && s[0] == '0' && MatchesAfterPrefix(s[1..]) {
        ShapeFromMatch(s, "0");
      } else {
        ShapeFromMatch(s, "");
      }
    }
    if exists p, d :: PhoneShape(s, p, d) {
      var p, d :| PhoneShape(s, p, d);
      MatchFromShape(s, p, d);
    }
  }

  lemma ShapeFromMatch(s: string, p: string)
    requires IsPhonePrefix(p) && |p| <= |s| && s[..|p|] == p && MatchesAfterPrefix(s[|p|..])
    ensures PhoneShape(s, p, s[|p|..][1..10])
  {
    var rest := s[|p|..];
    var d := rest[1..10];
    assert s == p + rest;
    AfterPrefixShape(rest);
    assert AllDigits(d);
    if rest == "9" + d {
      assert p + rest == p + "9" + d;
    } else {
      assert p + rest == p + "9" + d + "\n";
    }
  }

  /** What follows the prefix is "9", the nine digits, and at most a newline. */
  lemma AfterPrefixShape(rest: string)
    requires MatchesAfterPrefix(rest)
    ensures rest == "9" + rest[1..10] || rest == "9" + rest[1..10] + "\n"
  {
    if |rest| == 10 {
      assert rest == [rest[0]] + rest[1..10];
    } else {
      assert rest == [rest[0]] + rest[1..10] + [rest[10]];
    }
  }

  lemma MatchFromShape(s: string, p: string, d: string)
    requires PhoneShape(s, p, d)
    ensures MatchesPhonePattern(s)
  {
    var rest := if s == p + "9" + d then "9" + d else "9" + d + "\n";
    assert s == p + rest;
    AfterPrefixFromShape(d, rest);
    assert s[|p|..] == rest;
    if p == "+98" {
      assert s[..3] == "+98";
    } else if p == "0" {
      assert s[0] == '0';
    }
  }

  /** "9", nine digits and at most a newline is what the pattern wants after the prefix. */
  lemma AfterPrefixFromShape(d: string, rest: string)
    requires |d| == 9 && AllDigits(d)
    requires rest == "9" + d || rest == "9" + d + "\n"
    ensures MatchesAfterPrefix(rest)
  {
    assert rest[1..10] == d;
  }

  /** The number the signup test registers matches. */
  lemma SignupTestNumberMatches()
    ensures MatchesPhonePattern("09337905450")
  {
    assert "09337905450"[1..] == "9337905450";
    assert AllDigits("9337905450"[1..10]);
  }

  /** Python's `$` also matches before a final newline, so the pattern lets
      one trailing newline through. */
  lemma PatternAdmitsTrailingNewline()
    ensures MatchesPhonePattern("09337905450\n")
  {
    assert "09337905450\n"[1..] == "9337905450\n";
    assert AllDigits("9337905450\n"[1..10]);
  }

  /** A prefix that is not "+98" or "0", or a digit too many, is refused. */
  lemma PatternRejectsOtherShapes()
    ensures !MatchesPhonePattern("+9809337905450")
    ensures !MatchesPhonePattern("093379054501")
    ensures !MatchesPhonePattern("0833790545")
  {
  }

  // ----- the user record -----

  /** Keyword arguments other_fields may carry; None when the caller left it out. */
  datatype ExtraFields = ExtraFields(isStaff: Option<Json>, isSuperuser: Option<Json>, isActive: Option<Json>)

  /** A field given in other_fields, or the model's default False. */
  function FieldOrFalse(o: Option<Json>): Json
  {
    if o.Some? then o.value else JBool(false)
  }

  /** get_full_name: the first name, one space, the last name. */
  function FullName(first: string, last: string): (r: string)
    ensures |r| == |first| + 1 + |last|
    ensures r[..|first|] == first && r[|first|] == ' ' && r[|first| + 1..] == last
  {
    first + " " + last
  }

  /** Splits a name at its first space; the partner of FullName. */
  function SplitAtFirstSpace(s: string): (string, string)
  {
    if s == [] then ("", "")
    else if s[0] == ' ' then ("", s[1..])
    else
      var rest := SplitAtFirstSpace(s[1..]);
      ([s[0]] + rest.0, rest.1)
  }

  /** A first name without a space can be recovered from the full name,
      and so can the last name. */
  lemma {:induction false} FullNameSplits(first: string, last: string)
    requires forall i :: 0 <= i < |first| ==> first[i] != ' '
    ensures SplitAtFirstSpace(FullName(first, last)) == (first, last)
  {
    if first != [] {
      assert FullName(first, last)[1..] == FullName(first[1..], last);
      FullNameSplits(first[1..], last);
      assert [first[0]] + first[1..] == first;
    }
  }

  /** The email save() stores: lower-cased when non-empty. */
  function SavedEmail(email: string): (r: string)
    ensures |r| == |email|
    ensures forall i :: 0 <= i < |r| ==> !IsUpper(r[i])
    ensures forall i :: 0 <= i < |email| && !IsUpper(email[i]) ==> r[i] == email[i]
    ensures forall i :: 0 <= i < |email| && IsUpper(email[i]) ==> r[i] as int == email[i] as int + 32
  {
    if email != "" then Lower(email) else email
  }

  /** Saving twice stores the same email as saving once. */
  lemma SavedEmailIdempotent(email: string)
    ensures SavedEmail(SavedEmail(email)) == SavedEmail(email)
  {
    LowerIdempotent(email);
  }

  /** Length of the activation code. */
  const ActivationCodeLength := 6

  /** str(n)[:6] for the integer of a random UUID. */
  function ActivationCode(n: nat): (r: string)
    ensures 1 <= |r| <= ActivationCodeLength && AllDigits(r)
    ensures |r| <= |NatToDecimal(n)| && r == NatToDecimal(n)[..|r|]
    ensures |r| == ActivationCodeLength <==> n >= 100000
    ensures |r| == if |NatToDecimal(n)| < ActivationCodeLength then |NatToDecimal(n)| else ActivationCodeLength
  {
    var digits := NatToDecimal(n);
    DecimalLength(n, 5);
    assert Pow10(5) == 100000;
    if |digits| <= ActivationCodeLength then digits else digits[..ActivationCodeLength]
  }

  /** A user. Fields the source updates in place are fields of the class. */
  class User {
    var phoneNumber: string
    var firstName: string
    var lastName: string
    var email: string
    var isStaff: Json
    var isSuperuser: Json
    var isActive: Json
    var avatar: Option<Avatar>
    var activationCode: Option<string>

    /** self.model(...): an unsaved user built from the manager's arguments. */
    constructor (phoneNumber: string, firstName: string, lastName: string, email: string, extra: ExtraFields)
      ensures this.phoneNumber == phoneNumber && this.firstName == firstName && this.lastName == lastName
      ensures this.email == email
      ensures isStaff == FieldOrFalse(extra.isStaff) && isSuperuser == FieldOrFalse(extra.isSuperuser)
      ensures isActive == FieldOrFalse(extra.isActive)
      ensures avatar == None && activationCode == None
    {
      this.phoneNumber := phoneNumber;
      this.firstName := firstName;
      this.lastName := lastName;
      this.email := email;
      isStaff := FieldOrFalse(extra.isStaff);
      isSuperuser := FieldOrFalse(extra.isSuperuser);
      isActive := FieldOrFalse(extra.isActive);
      avatar := None;
      activationCode := None;
    }

    /** get_full_name: the first name, one space, the last name. */
    function GetFullName(): (r: string)
      reads this
      ensures |r| == |firstName| + 1 + |lastName|
      ensures r[..|firstName|] == firstName && r[|firstName|] == ' ' && r[|firstName| + 1..] == lastName
    {
      FullName(firstName, lastName)
    }

    /** save(): lower-cases a non-empty email; the rest of the record is kept. */
    method Save()
      modifies this`email
      ensures email == SavedEmail(old(email))
    {
      if email != "" {
        email := Lower(email);
      }
    }

    /** generate_activation_code: stores the code taken from the random
        integer, then saves. */
    method GenerateActivationCode(uuidInt: nat)
      modifies this`activationCode, this`email
      ensures activationCode == Some(ActivationCode(uuidInt))
      ensures email == SavedEmail(old(email))
    {
      activationCode := Some(ActivationCode(uuidInt));
      Save();
    }
  }

  // ----- the user manager -----

  const EmailRequired := "You must provide an email address."
  const PhoneRequired := "You must provide a phone number."
  const FirstNameRequired := "You must provide a first name."
  const LastNameRequired := "You must provide a last name."
  const StaffRequired := "Superuser must be assigned to is_staff=True."
  const SuperuserRequired := "Superuser must be assigned to is_superuser=True."

  /** The first failing argument check of create_user, in the source's order. */
  function CreateUserError(phoneNumber: string, firstName: string, lastName: string, email: string): (r: Option<string>)
    ensures r.None? <==> email != "" && phoneNumber != "" && firstName != "" && lastName != ""
    ensures email == "" ==> r == Some(EmailRequired)
    ensures email != "" && phoneNumber == "" ==> r == Some(PhoneRequired)
    ensures email != "" && phoneNumber != "" && firstName == "" ==> r == Some(FirstNameRequired)
    ensures email != "" && phoneNumber != "" && firstName != "" && lastName == "" ==> r == Some(LastNameRequired)
  {
    if email == "" then Some(EmailRequired)
    else if phoneNumber == "" then Some(PhoneRequired)
    else if firstName == "" then Some(FirstNameRequired)
    else if lastName == "" then Some(LastNameRequired)
    else None
  }

  /** create_user: checks its arguments before building anything, then builds
      and saves the user (password hashing is not modelled). */
  method CreateUser(phoneNumber: string, firstName: string, lastName: string, email: string, extra: ExtraFields)
    returns (r: Result<User>)
    ensures r.Raised? <==> CreateUserError(phoneNumber, firstName, lastName, email).Some?
    ensures r.Raised? ==> Some(r.message) == CreateUserError(phoneNumber, firstName, lastName, email)
    ensures r.Ok? ==> fresh(r.value)
    ensures r.Ok? ==> r.value.phoneNumber == phoneNumber && r.value.firstName == firstName
    ensures r.Ok? ==> r.value.lastName == lastName && r.value.email == SavedEmail(email)
    ensures r.Ok? ==> r.value.isStaff == FieldOrFalse(extra.isStaff)
    ensures r.Ok? ==> r.value.isSuperuser == FieldOrFalse(extra.isSuperuser)
    ensures r.Ok? ==> r.value.isActive == FieldOrFalse(extra.isActive)
  {
    var error := CreateUserError(phoneNumber, firstName, lastName, email);
    if error.Some? {
      return Raised(error.value);
    }
    var user := new User(phoneNumber, firstName, lastName, email, extra);
    user.Save();
    r := Ok(user);
  }

  /** other_fields.setdefault(key, True). */
  function SetDefaultTrue(o: Option<Json>): (r: Option<Json>)
    ensures o.Some? ==> r == o
    ensures o.None? ==> r == Some(JBool(true))
  {
    if o.Some? then o else Some(JBool(true))
  }

  /** The superuser checks: only a missing flag or the value True passes. */
  function SuperuserError(extra: ExtraFields): (r: Option<string>)
    ensures r.None? <==> ((extra.isStaff.None? || extra.isStaff == Some(JBool(true)))
                          && (extra.isSuperuser.None? || extra.isSuperuser == Some(JBool(true))))
    ensures extra.isStaff.Some? && extra.isStaff != Some(JBool(true)) ==> r == Some(StaffRequired)
    ensures ((extra.isStaff.None? || extra.isStaff == Some(JBool(true)))
             && extra.isSuperuser.Some? && extra.isSuperuser != Some(JBool(true))) ==> r == Some(SuperuserRequired)
  {
    if SetDefaultTrue(extra.isStaff) != Some(JBool(true)) then Some(StaffRequired)
    else if SetDefaultTrue(extra.isSuperuser) != Some(JBool(true)) then Some(SuperuserRequired)
    else None
  }

  /** create_superuser: defaults the three flags to True, insists that
      is_staff and is_superuser are True, then defers to create_user. */
  method CreateSuperuser(phoneNumber: string, firstName: string, lastName: string, email: string, extra: ExtraFields)
    returns (r: Result<User>)
    ensures SuperuserError(extra).Some? ==> r == Raised(SuperuserError(extra).value)
    ensures SuperuserError(extra).None? ==>
              (r.Raised? <==> CreateUserError(phoneNumber, firstName, lastName, email).Some?)
    ensures SuperuserError(extra).None? && r.Raised? ==>
              Some(r.message) == CreateUserError(phoneNumber, firstName, lastName, email)
    ensures r.Ok? ==> r.value.phoneNumber == phoneNumber && r.value.firstName == firstName
    ensures r.Ok? ==> r.value.lastName == lastName
    ensures r.Ok? ==> fresh(r.value) && r.value.isStaff == JBool(true) && r.value.isSuperuser == JBool(true)
    ensures r.Ok? ==> r.value.isActive == (if extra.isActive.Some? then extra.isActive.value else JBool(true))
    ensures r.Ok? ==> r.value.email == SavedEmail(email)
  {
    var fields := extra;
    fields := fields.(isStaff := SetDefaultTrue(fields.isStaff));
    fields := fields.(isSuperuser := SetDefaultTrue(fields.isSuperuser));
    fields := fields.(isActive := SetDefaultTrue(fields.isActive));
    if fields.isStaff != Some(JBool(true)) {
      return Raised(StaffRequired);
    }
    if fields.isSuperuser != Some(JBool(true)) {
      return Raised(SuperuserRequired);
    }
    r := CreateUser(phoneNumber, firstName, lastName, email, fields);
  }
}
