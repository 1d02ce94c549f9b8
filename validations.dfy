/**
 * The custom validation rules registered with the request validator: password strength,
 * at least one service on a lead submission, and a new password that differs from the
 * old one.
 */
module Validations {
  import opened Wrappers
  import opened Text
  import opened Models

  /** The number of bytes UTF-8 spends on a character; Go's `len` on a string counts bytes. */
  function Utf8Width(c: char): nat
  {
    if c as int < 0x80 then 1 else if c as int < 0x800 then 2 else if c as int < 0x1_0000 then 3 else 4
  }

  function Utf8Len(s: string): nat
  {
    if s == [] then 0 else Utf8Len(s[..|s| - 1]) + Utf8Width(s[|s| - 1])
  }

  predicate IsAscii(c: char) { c as int < 0x80 }

  /** A string is never shorter in bytes than in characters, and as long when it is ASCII. */
  lemma {:induction false} Utf8LenBounds(s: string)
    ensures Utf8Len(s) >= |s|
    ensures (forall i :: 0 <= i < |s| ==> IsAscii(s[i])) ==> Utf8Len(s) == |s|
    decreases |s|
  {
    if s != [] {
      Utf8LenBounds(s[..|s| - 1]);
    }
  }

  /** The special characters of the password rule's character class, in its order. */
  const Specials: string := "!@#$%^&*()_+-=[]{};:'\",<>./?\\|"

  predicate IsUpper(c: char) { 'A' <= c <= 'Z' }

  predicate IsSpecial(c: char) { c in Specials }

  predicate HasDigit(s: string) { exists i :: 0 <= i < |s| && IsDigit(s[i]) }

  predicate HasUpper(s: string) { exists i :: 0 <= i < |s| && IsUpper(s[i]) }

  predicate HasSpecial(s: string) { exists i :: 0 <= i < |s| && IsSpecial(s[i]) }

  /** At least 8 bytes, with an ASCII digit, an ASCII capital letter and a special character. */
  predicate PasswordValidation(password: string)
  {
    Utf8Len(password) >= 8 && HasDigit(password) && HasUpper(password) && HasSpecial(password)
  }

  /** No digit, capital or special character is another; all are ASCII. */
  lemma ClassesDisjoint(c: char)
    ensures IsDigit(c) ==> !IsUpper(c) && !IsSpecial(c)
    ensures IsUpper(c) ==> !IsSpecial(c)
    ensures IsDigit(c) || IsUpper(c) || IsSpecial(c) ==> IsAscii(c)
  {
  }

  /**
   * An accepted password holds three different characters, so it has at least three;
   * with only ASCII characters it has at least eight.
   */
  lemma AcceptedLength(password: string)
    requires PasswordValidation(password)
    ensures |password| >= 3
    ensures (forall i :: 0 <= i < |password| ==> IsAscii(password[i])) ==> |password| >= 8
  {
    var d :| 0 <= d < |password| && IsDigit(password[d]);
    var u :| 0 <= u < |password| && IsUpper(password[u]);
    var p :| 0 <= p < |password| && IsSpecial(password[p]);
    ClassesDisjoint(password[d]);
    ClassesDisjoint(password[u]);
    assert d != u && d != p && u != p;
    Utf8LenBounds(password);
  }

  /** The lead submission rule: at least one of the three services is requested. */
  predicate AtLeastOneServiceEnabled(draft: CreateLeadDTO)
  {
    draft.isInternet || draft.isShipping || draft.isCleaning
  }

  /**
   * A rule violation as the validator reports it: the offending value, the field's name and
   * struct-tag name, the rule's tag, and its parameter.
   */
  datatype FieldError = FieldError(value: string, field: string, structField: string, tag: string, param: string)

  /** Changing a password to itself is reported on the new password as `nefield` against the old one. */
  function NewPasswordStructValidation(dto: NewPasswordDTO): (r: Option<FieldError>)
    ensures r.Some? <==> dto.oldPassword == dto.newPassword
    ensures r.Some? ==> r.value == FieldError(dto.newPassword, "NewPassword", "new_password", "nefield", "OldPassword")
  {
    if dto.oldPassword == dto.newPassword then Some(FieldError(dto.newPassword, "NewPassword", "new_password", "nefield", "OldPassword"))
    else None
  }
}
