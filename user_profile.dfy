/** The profile page (src/pages/UserProfile.tsx): the input masks for CPF,
    phone and CEP, the field update of the form state, and the checks of
    handleSaveProfile and handleChangePassword. `updateUser` belongs to the
    authentication context; the save handler here returns the form it would hand it. */
module UserProfile {
  import opened Wrappers
  import opened Text

  /** `numbers.replace(/(\d{3})(\d{3})(\d{3})(\d{2})/, '$1.$2.$3-$4')` on the
      digits `d`: in a string of digits the first match of the pattern starts
      at index 0, so with 11 digits or more the first 11 are masked and the
      rest follow unchanged. */
  function CpfMask(d: string): string {
    if |d| >= 11 then d[..3] + "." + d[3..6] + "." + d[6..9] + "-" + d[9..11] + d[11..] else d
  }

  /** `numbers.replace(/(\d{2})(\d{5})(\d{4})/, '($1) $2-$3')`. */
  function PhoneMask(d: string): string {
    if |d| >= 11 then "(" + d[..2] + ") " + d[2..7] + "-" + d[7..11] + d[11..] else d
  }

  /** `numbers.replace(/(\d{5})(\d{3})/, '$1-$2')`. */
  function ZipCodeMask(d: string): string {
    if |d| >= 8 then d[..5] + "-" + d[5..8] + d[8..] else d
  }

  /** formatCPF: with at least 11 digits the first 11 are masked as ddd.ddd.ddd-dd and
      the rest follow; with fewer, the bare digits. */
  function FormatCpf(value: string): (r: string)
    ensures var d := Digits(value);
            |d| >= 11 ==> r == d[..3] + "." + d[3..6] + "." + d[6..9] + "-" + d[9..11] + d[11..]
    ensures |Digits(value)| < 11 ==> r == Digits(value)
  {
    CpfMask(Digits(value))
  }

  /** formatPhone: with at least 11 digits the first 11 are masked as (dd) ddddd-dddd and
      the rest follow; with fewer, the bare digits. */
  function FormatPhone(value: string): (r: string)
    ensures var d := Digits(value);
            |d| >= 11 ==> r == "(" + d[..2] + ") " + d[2..7] + "-" + d[7..11] + d[11..]
    ensures |Digits(value)| < 11 ==> r == Digits(value)
  {
    PhoneMask(Digits(value))
  }

  /** formatZipCode: with at least 8 digits the first 8 are masked as ddddd-ddd and the
      rest follow; with fewer, the bare digits. */
  function FormatZipCode(value: string): (r: string)
    ensures var d := Digits(value);
            |d| >= 8 ==> r == d[..5] + "-" + d[5..8] + d[8..]
    ensures |Digits(value)| < 8 ==> r == Digits(value)
  {
    ZipCodeMask(Digits(value))
  }

  /** One group of a mask: a separator without digits, then the next digits of `d`. */
  lemma MaskStep(d: string, i: nat, j: nat, acc: string, sep: string)
    requires AllDigits(d) && i <= j <= |d| && Digits(acc) == d[..i] && NoDigits(sep)
    ensures Digits(acc + sep + d[i..j]) == d[..j]
  {
    DigitsAppend(acc, sep, d[i..j]);
    assert d[..i] + d[i..j] == d[..j];
  }

  /** The digits after the masked ones follow unchanged. */
  lemma MaskRest(d: string, i: nat, acc: string)
    requires AllDigits(d) && i <= |d| && Digits(acc) == d[..i]
    ensures Digits(acc + d[i..]) == d
  {
    DigitsConcat(acc, d[i..]);
    DigitsOfDigits(d[i..]);
    assert d[..i] + d[i..] == d;
  }

  lemma {:induction false} CpfMaskKeepsDigits(d: string)
    requires AllDigits(d)
    ensures Digits(CpfMask(d)) == d
  {
    DigitsOfDigits(d);
    if |d| >= 11 {
      var s1 := d[..3];
      var s2 := s1 + "." + d[3..6];
      var s3 := s2 + "." + d[6..9];
      var s4 := s3 + "-" + d[9..11];
      DigitsOfDigits(s1);
      MaskStep(d, 3, 6, s1, ".");
      MaskStep(d, 6, 9, s2, ".");
      MaskStep(d, 9, 11, s3, "-");
      MaskRest(d, 11, s4);
    }
  }

  lemma {:induction false} PhoneMaskKeepsDigits(d: string)
    requires AllDigits(d)
    ensures Digits(PhoneMask(d)) == d
  {
    DigitsOfDigits(d);
    if |d| >= 11 {
      var s1 := "(" + d[..2];
      var s2 := s1 + ") " + d[2..7];
      var s3 := s2 + "-" + d[7..11];
      DigitsConcat("(", d[..2]);
      DigitsAppend([], "(", []);
      assert [] + "(" + [] == "(";
      DigitsOfDigits([]);
      DigitsOfDigits(d[..2]);
      MaskStep(d, 2, 7, s1, ") ");
      MaskStep(d, 7, 11, s2, "-");
      MaskRest(d, 11, s3);
    }
  }

  lemma {:induction false} ZipCodeMaskKeepsDigits(d: string)
    requires AllDigits(d)
    ensures Digits(ZipCodeMask(d)) == d
  {
    DigitsOfDigits(d);
    if |d| >= 8 {
      var s1 := d[..5];
      var s2 := s1 + "-" + d[5..8];
      DigitsOfDigits(s1);
      MaskStep(d, 5, 8, s1, "-");
      MaskRest(d, 8, s2);
    }
  }

  /** The masks add only punctuation: the digits of each formatter's output are
      the digits of its input. */
  lemma FormattersKeepDigits(value: string)
    ensures Digits(FormatCpf(value)) == Digits(value)
    ensures Digits(FormatPhone(value)) == Digits(value)
    ensures Digits(FormatZipCode(value)) == Digits(value)
  {
    CpfMaskKeepsDigits(Digits(value));
    PhoneMaskKeepsDigits(Digits(value));
    ZipCodeMaskKeepsDigits(Digits(value));
  }

  /** Formatting an already formatted value changes nothing. */
  lemma FormattersAreIdempotent(value: string)
    ensures FormatCpf(FormatCpf(value)) == FormatCpf(value)
    ensures FormatPhone(FormatPhone(value)) == FormatPhone(value)
    ensures FormatZipCode(FormatZipCode(value)) == FormatZipCode(value)
  {
    FormattersKeepDigits(value);
  }

  /** With fewer digits than the mask needs, each formatter returns the bare digits. */
  lemma ShortInputsStayDigits(value: string)
    ensures |Digits(value)| < 11 ==> FormatCpf(value) == Digits(value) && FormatPhone(value) == Digits(value)
    ensures |Digits(value)| < 8 ==> FormatZipCode(value) == Digits(value)
  {
  }

  /** `/^\d{3}\.\d{3}\.\d{3}-\d{2}$/`. */
  predicate CpfPattern(s: string) {
    |s| == 14 && s[3] == '.' && s[7] == '.' && s[11] == '-' &&
    forall i :: 0 <= i < 14 && i != 3 && i != 7 && i != 11 ==> IsDigit(s[i])
  }

  /** The first 11 of at least 11 digits are masked as ddd.ddd.ddd-dd and the rest
      follow, three characters longer; exactly 11 digits give a value the save check
      accepts, more give a longer one, which it refuses. */
  lemma CpfMaskMatchesCheck(value: string)
    ensures |Digits(value)| == 11 ==> CpfPattern(FormatCpf(value))
    ensures |Digits(value)| >= 11 ==> FormatCpf(value) == Digits(value)[..3] + "." + Digits(value)[3..6] + "." +
                                                          Digits(value)[6..9] + "-" + Digits(value)[9..] &&
                                      |FormatCpf(value)| == |Digits(value)| + 3
    ensures |Digits(value)| > 11 ==> !CpfPattern(FormatCpf(value))
  {
    var d := Digits(value);
    if |d| == 11 {
      var r := FormatCpf(value);
      assert d[11..] == [];
      forall i | 0 <= i < 14 && i != 3 && i != 7 && i != 11
        ensures IsDigit(r[i])
      {
        if i < 3 { assert r[i] == d[i]; }
        else if i < 7 { assert r[i] == d[i - 1]; }
        else if i < 11 { assert r[i] == d[i - 2]; }
        else { assert r[i] == d[i - 3]; }
      }
    }
  }

  /** From 11 digits on, the phone mask gives (dd) ddddd-dddd followed by the rest, four
      characters longer (15 for exactly 11); from 8 digits on, the CEP mask gives ddddd-ddd
      followed by the rest, one character longer (9 for exactly 8). */
  lemma PhoneAndZipMasks(value: string)
    ensures var d := Digits(value);
            |d| >= 11 ==> FormatPhone(value) == "(" + d[..2] + ") " + d[2..7] + "-" + d[7..] &&
                          |FormatPhone(value)| == |d| + 4
    ensures var d := Digits(value);
            |d| >= 8 ==> FormatZipCode(value) == d[..5] + "-" + d[5..] && |FormatZipCode(value)| == |d| + 1
  {
    var d := Digits(value);
    if |d| >= 11 { assert d[7..11] + d[11..] == d[7..]; }
    if |d| >= 8 { assert d[5..8] + d[8..] == d[5..]; }
  }

  predicate NoSpaceOrAt(s: string) {
    forall i :: 0 <= i < |s| ==> s[i] != '@' && !IsJsSpace(s[i])
  }

  /** `/^[^\s@]+@[^\s@]+\.[^\s@]+$/`: one '@' with text before it, and after
      it a text holding a '.' that is neither its first nor its last character;
      no white space anywhere. */
  predicate EmailPattern(s: string) {
    exists i, j :: 0 < i < j - 1 && j < |s| - 1 && s[i] == '@' && s[j] == '.' &&
                   NoSpaceOrAt(s[..i]) && NoSpaceOrAt(s[i + 1..])
  }

  /** The form state: the top-level text fields (name, email, phone, cpf) and the address fields. */
  datatype ProfileForm = ProfileForm(fields: map<string, string>, address: map<string, string>)

  /** A property read: an absent field is `undefined`, which every check treats like "". */
  function Field(m: map<string, string>, k: string): string {
    if k in m then m[k] else ""
  }

  datatype SaveError = MissingNameOrEmail | InvalidEmail | InvalidCpf

  /** The checks of handleSaveProfile, in order. */
  function SaveCheck(f: ProfileForm): (r: Option<SaveError>)
    ensures r.None? <==> Field(f.fields, "name") != "" && Field(f.fields, "email") != "" &&
                         EmailPattern(Field(f.fields, "email")) &&
                         (Field(f.fields, "cpf") == "" || CpfPattern(Field(f.fields, "cpf")))
    ensures r == Some(MissingNameOrEmail) <==> Field(f.fields, "name") == "" || Field(f.fields, "email") == ""
    ensures r == Some(InvalidCpf) ==> EmailPattern(Field(f.fields, "email"))
  {
    var name, email, cpf := Field(f.fields, "name"), Field(f.fields, "email"), Field(f.fields, "cpf");
    if name == "" || email == "" then Some(MissingNameOrEmail)
    else if !EmailPattern(email) then Some(InvalidEmail)
    else if cpf != "" && !CpfPattern(cpf) then Some(InvalidCpf)
    else None
  }

  /** `field.split('.')[1]` for a field that starts with "address.". */
  function AddressKey(field: string): (k: string)
    requires StartsWith(field, "address.")
    ensures '.' !in k
  {
    var parts := Split(field, '.');
    assert field == "address" + ['.'] + field[8..];
    SplitCons("address", field[8..], '.');
    parts[1]
  }

  /** The key of "address.k" is k. */
  lemma AddressKeyOf(k: string)
    requires '.' !in k
    ensures StartsWith("address." + k, "address.") && AddressKey("address." + k) == k
  {
    var field := "address." + k;
    assert field[8..] == k;
    assert field == "address" + ['.'] + k;
    SplitCons("address", k, '.');
    SplitWord(k, '.');
  }

  datatype Passwords = Passwords(currentPassword: string, newPassword: string, confirmPassword: string)

  datatype PasswordError = MissingPassword | PasswordsDiffer | PasswordTooShort

  /** The three field names the password inputs pass to handlePasswordChange. */
  datatype PasswordField = CurrentPassword | NewPassword | ConfirmPassword

  /** The checks of handleChangePassword, in order (length in characters). */
  function PasswordCheck(p: Passwords): (r: Option<PasswordError>)
    ensures r.None? <==> p.currentPassword != "" && p.newPassword != "" && p.confirmPassword != "" &&
                         p.newPassword == p.confirmPassword && |p.newPassword| >= 6
    ensures r == Some(MissingPassword) <==> p.currentPassword == "" || p.newPassword == "" || p.confirmPassword == ""
    ensures r == Some(PasswordTooShort) ==> p.newPassword == p.confirmPassword
  {
    if p.currentPassword == "" || p.newPassword == "" || p.confirmPassword == "" then Some(MissingPassword)
    else if p.newPassword != p.confirmPassword then Some(PasswordsDiffer)
    else if |p.newPassword| < 6 then Some(PasswordTooShort)
    else None
  }

  class ProfilePage {
    var form: ProfileForm
    var passwords: Passwords
    var isEditing: bool

    constructor (form: ProfileForm)
      ensures this.form == form && passwords == Passwords("", "", "") && !isEditing
    {
      this.form := form;
      passwords := Passwords("", "", "");
      isEditing := false;
    }

    /** handleInputChange(field, value). A field named "address" itself (no
        caller passes one) would replace the address object and is excluded. */
    method HandleInputChange(field: string, value: string)
      requires field != "address"
      modifies this`form
      ensures StartsWith(field, "address.") ==>
                form == old(form).(address := old(form).address[AddressKey(field) := value])
      ensures !StartsWith(field, "address.") ==>
                form == old(form).(fields := old(form).fields[field := value])
    {
      if StartsWith(field, "address.") {
        var key := AddressKey(field);
        form := form.(address := form.address[key := value]);
      } else {
        form := form.(fields := form.fields[field := value]);
      }
    }

    /** handlePasswordChange(field, value): the named password field takes the
        value. The page passes only the three field names of `Passwords`. */
    method HandlePasswordChange(field: PasswordField, value: string)
      modifies this`passwords
      ensures field == CurrentPassword ==> passwords == old(passwords).(currentPassword := value)
      ensures field == NewPassword ==> passwords == old(passwords).(newPassword := value)
      ensures field == ConfirmPassword ==> passwords == old(passwords).(confirmPassword := value)
    {
      match field
      case CurrentPassword => passwords := passwords.(currentPassword := value);
      case NewPassword => passwords := passwords.(newPassword := value);
      case ConfirmPassword => passwords := passwords.(confirmPassword := value);
    }

    /** handleSaveProfile: on success editing ends and the form is returned for
        `updateUser`; a refused form changes nothing. */
    method HandleSaveProfile() returns (err: Option<SaveError>, saved: Option<ProfileForm>)
      modifies this`isEditing
      ensures err == SaveCheck(form)
      ensures err.Some? ==> saved.None? && isEditing == old(isEditing)
      ensures err.None? ==> saved == Some(form) && !isEditing
    {
      err := SaveCheck(form);
      if err.Some? {
        saved := None;
        return;
      }
      saved := Some(form);
      isEditing := false;
    }

    /** handleChangePassword: on success the three fields are cleared. */
    method HandleChangePassword() returns (err: Option<PasswordError>)
      modifies this`passwords
      ensures err == PasswordCheck(old(passwords))
      ensures err.Some? ==> passwords == old(passwords)
      ensures err.None? ==> passwords == Passwords("", "", "")
    {
      err := PasswordCheck(passwords);
      if err.None? {
        passwords := Passwords("", "", "");
      }
    }
  }
}
