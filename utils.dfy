/**
 * Small helpers: list membership, defaults for nil, the user record copies, and the
 * random code and password generators. The random source is an oracle: `draw(k, n)` is
 * the answer of the k-th call of `rand.Int` with bound `n`, either a number below `n` or
 * `None` for a failed read.
 */
module Utils {
  import opened Wrappers
  import opened Text
  import opened Models
  import opened Validations

  method Contains(slice: seq<string>, value: string) returns (found: bool)
    ensures found <==> value in slice
  {
    var i := 0;
    while i < |slice|
      invariant 0 <= i <= |slice|
      invariant value !in slice[..i]
    {
      if slice[i] == value {
        return true;
      }
      assert slice[..i + 1] == slice[..i] + [slice[i]];
      i := i + 1;
    }
    assert slice[..i] == slice;
    return false;
  }

  /** The pointed-to value, or 0 for nil. */
  function DerefInt64(p: Option<int>): (r: int)
    ensures p.None? ==> r == 0
    ensures p.Some? ==> r == p.value
  {
    if p.Some? then p.value else 0
  }

  /** The transfer shape of a user: the id behind a pointer, every other field copied. */
  function UserToDTO(user: User): (dto: UserDTO)
    ensures dto.id == Some(user.id)
    ensures dto.roles == user.roles && dto.referralCode == user.referralCode && dto.email == user.email
    ensures dto.name == user.name && dto.phoneNumber == user.phoneNumber && dto.city == user.city
    ensures dto.telegram == user.telegram
  {
    UserDTO(Some(user.id), user.roles, user.referralCode, user.email, user.name, user.phoneNumber, user.city, user.telegram)
  }

  /** The user behind a transfer record: a nil id reads as 0, every other field copied. */
  function DtoToUser(dto: UserDTO): (user: User)
    ensures user.id == DerefInt64(dto.id)
    ensures user.roles == dto.roles && user.referralCode == dto.referralCode && user.email == dto.email
    ensures user.name == dto.name && user.phoneNumber == dto.phoneNumber && user.city == dto.city
    ensures user.telegram == dto.telegram
  {
    User(DerefInt64(dto.id), dto.roles, dto.referralCode, dto.email, dto.name, dto.phoneNumber, dto.city, dto.telegram)
  }

  /** Copying a user to its transfer shape and back loses nothing. */
  lemma UserRoundTrip(user: User)
    ensures DtoToUser(UserToDTO(user)) == user
  {
  }

  /** A transfer record with an id survives the copy to a user and back; one without gets id 0. */
  lemma DtoRoundTrip(dto: UserDTO)
    ensures dto.id.Some? ==> UserToDTO(DtoToUser(dto)) == dto
    ensures dto.id.None? ==> UserToDTO(DtoToUser(dto)) == dto.(id := Some(0))
  {
  }

  function UserToReferralDTO(user: User, status: bool): (r: ReferralDTO)
    ensures r.id == user.id && r.name == user.name && r.phoneNumber == user.phoneNumber && r.city == user.city
    ensures r.active == status
  {
    ReferralDTO(user.id, user.name, user.phoneNumber, user.city, status)
  }

  // ---------------------------------------------------------------------------
  // Random codes and passwords
  // ---------------------------------------------------------------------------

  /** `crypto/rand.Int` answers below its bound. */
  ghost predicate InRange(draw: (nat, nat) -> Option<nat>)
  {
    forall k: nat, n: nat :: n > 0 && draw(k, n).Some? ==> draw(k, n).value < n
  }

  /** Why a generator gives no result; `Panic` is a Go run-time panic. */
  datatype GenError = TooShort | RandFailed | Panic

  const CodeCharset: string := "ABCDEFGHIJKLMNOPQRSTUVWXYZ0123456789"

  /** A code of `length` characters from `CodeCharset`, one draw per character. */
  method GeneratePasswordCode(length: int, draw: (nat, nat) -> Option<nat>) returns (r: Result<string, GenError>)
    requires InRange(draw)
    ensures length < 0 ==> r == Failure(Panic)
    ensures length >= 0 ==> (r.Success? <==> forall i :: 0 <= i < length ==> draw(i, |CodeCharset|).Some?)
    ensures length >= 0 && r.Failure? ==> r.error == RandFailed
    ensures r.Success? ==>
      && |r.value| == length
      && forall i :: 0 <= i < length ==> r.value[i] == CodeCharset[draw(i, |CodeCharset|).value]
  {
    if length < 0 {
      return Failure(Panic);
    }
    var result := new char[length];
    var i := 0;
    while i < length
      invariant 0 <= i <= length
      invariant forall j :: 0 <= j < i ==> draw(j, |CodeCharset|).Some? && result[j] == CodeCharset[draw(j, |CodeCharset|).value]
    {
      var n := draw(i, |CodeCharset|);
      if n.None? {
        return Failure(RandFailed);
      }
      result[i] := CodeCharset[n.value];
      i := i + 1;
    }
    r := Success(result[..]);
  }

  /** Every generated code is made of capital letters and digits. */
  lemma CodeCharacters(code: string, length: nat, draw: (nat, nat) -> Option<nat>)
    requires InRange(draw)
    requires |code| == length
    requires forall i :: 0 <= i < length ==> draw(i, |CodeCharset|).Some? && code[i] == CodeCharset[draw(i, |CodeCharset|).value]
    ensures forall i :: 0 <= i < |code| ==> IsUpper(code[i]) || IsDigit(code[i])
  {
    assert forall j :: 0 <= j < |CodeCharset| ==> IsUpper(CodeCharset[j]) || IsDigit(CodeCharset[j]);
  }

  const Digits: string := "0123456789"
  const Uppers: string := "ABCDEFGHIJKLMNOPQRSTUVWXYZ"
  const GenSpecials: string := "!@#$%^&*()_+-=[]{};:'\",.<>/?\\|"
  const Lowers: string := "abcdefghijklmnopqrstuvwxyz"
  const AllChars: string := Digits + Uppers + GenSpecials + Lowers

  /** The characters position `i` of a fresh password is drawn from. */
  function Pool(i: nat): string
  {
    if i == 0 then Digits else if i == 1 then Uppers else if i == 2 then GenSpecials else AllChars
  }

  lemma DigitsFacts()
    ensures forall j :: 0 <= j < |Digits| ==> IsDigit(Digits[j]) && IsAscii(Digits[j])
  {
  }

  lemma UppersFacts()
    ensures forall j :: 0 <= j < |Uppers| ==> IsUpper(Uppers[j]) && IsAscii(Uppers[j])
  {
  }

  /** The generator's specials, in its own order, are all in the validator's class. */
  lemma GenSpecialsFacts()
    ensures forall j :: 0 <= j < |GenSpecials| ==> IsSpecial(GenSpecials[j]) && IsAscii(GenSpecials[j])
  {
  }

  lemma AllCharsAscii()
    ensures forall j :: 0 <= j < |AllChars| ==> IsAscii(AllChars[j])
  {
    DigitsFacts();
    UppersFacts();
    GenSpecialsFacts();
    assert forall j :: 0 <= j < |Lowers| ==> IsAscii(Lowers[j]);
    forall j | 0 <= j < |AllChars| ensures IsAscii(AllChars[j]) {
      if j < 10 {
        assert AllChars[j] == Digits[j];
      } else if j < 36 {
        assert AllChars[j] == Uppers[j - 10];
      } else if j < 66 {
        assert AllChars[j] == GenSpecials[j - 36];
      } else {
        assert AllChars[j] == Lowers[j - 66];
      }
    }
  }

  /** Every pool is ASCII, and the generator's specials are the validator's specials. */
  lemma PoolFacts(i: nat)
    ensures |Pool(i)| > 0
    ensures forall j :: 0 <= j < |Pool(i)| ==> IsAscii(Pool(i)[j])
    ensures i == 0 ==> forall j :: 0 <= j < |Pool(i)| ==> IsDigit(Pool(i)[j])
    ensures i == 1 ==> forall j :: 0 <= j < |Pool(i)| ==> IsUpper(Pool(i)[j])
    ensures i == 2 ==> forall j :: 0 <= j < |Pool(i)| ==> IsSpecial(Pool(i)[j])
  {
    if i == 0 {
      DigitsFacts();
    } else if i == 1 {
      UppersFacts();
    } else if i == 2 {
      GenSpecialsFacts();
    } else {
      AllCharsAscii();
    }
  }

  /** Every draw of the filling phase succeeds. */
  predicate FillDraws(draw: (nat, nat) -> Option<nat>, length: nat)
  {
    forall i :: 0 <= i < length ==> draw(i, |Pool(i)|).Some?
  }

  /** The password before shuffling: position i holds the i-th draw's character of its pool. */
  function Filled(draw: (nat, nat) -> Option<nat>, length: nat): (s: seq<char>)
    requires InRange(draw) && FillDraws(draw, length)
    ensures |s| == length
  {
    seq(length, i requires 0 <= i < length => (PoolFacts(i); Pool(i)[draw(i, |Pool(i)|).value]))
  }

  function Swap(s: seq<char>, i: nat, j: nat): (t: seq<char>)
    requires i < |s| && j < |s|
    ensures |t| == |s| && t[i] == s[j] && t[j] == s[i]
    ensures forall k :: 0 <= k < |s| && k != i && k != j ==> t[k] == s[k]
  {
    s[i := s[j]][j := s[i]]
  }

  /** Every draw of the shuffle succeeds; its calls are numbered from `base`, after the earlier ones. */
  predicate ShuffleDraws(draw: (nat, nat) -> Option<nat>, base: nat, n: nat)
  {
    forall k :: base <= k < base + n ==> draw(k, n).Some?
  }

  /** The first `m` steps of the shuffle: step i swaps position i with the i-th draw below |s|. */
  function Shuffled(s: seq<char>, draw: (nat, nat) -> Option<nat>, base: nat, m: nat): (t: seq<char>)
    requires InRange(draw) && m <= |s| && forall k :: base <= k < base + m ==> draw(k, |s|).Some?
    ensures |t| == |s|
    decreases m
  {
    if m == 0 then s
    else Swap(Shuffled(s, draw, base, m - 1), m - 1, draw(base + m - 1, |s|).value)
  }

  lemma SwapPermutes(s: seq<char>, i: nat, j: nat)
    requires i < |s| && j < |s|
    ensures multiset(Swap(s, i, j)) == multiset(s)
  {
  }

  /** Shuffling only moves characters: the result is a permutation of the input. */
  lemma {:induction false} ShuffledPermutes(s: seq<char>, draw: (nat, nat) -> Option<nat>, base: nat, m: nat)
    requires InRange(draw) && m <= |s| && forall k :: base <= k < base + m ==> draw(k, |s|).Some?
    ensures multiset(Shuffled(s, draw, base, m)) == multiset(s)
    decreases m
  {
    if m > 0 {
      ShuffledPermutes(s, draw, base, m - 1);
      SwapPermutes(Shuffled(s, draw, base, m - 1), m - 1, draw(base + m - 1, |s|).value);
    }
  }

  /** The in-place shuffle; a failed draw dereferences a nil number and panics, reported as `false`. */
  method Shuffle(data: array<char>, draw: (nat, nat) -> Option<nat>, base: nat) returns (ok: bool)
    requires InRange(draw)
    modifies data
    ensures ok <==> ShuffleDraws(draw, base, data.Length)
    ensures ok ==> data[..] == Shuffled(old(data[..]), draw, base, data.Length)
    ensures multiset(data[..]) == multiset(old(data[..]))
  {
    var i := 0;
    while i < data.Length
      invariant 0 <= i <= data.Length
      invariant forall k :: base <= k < base + i ==> draw(k, data.Length).Some?
      invariant data[..] == Shuffled(old(data[..]), draw, base, i)
    {
      var j := draw(base + i, data.Length);
      if j.None? {
        assert !ShuffleDraws(draw, base, data.Length);
        ShuffledPermutes(old(data[..]), draw, base, i);
        return false;
      }
      ghost var before := data[..];
      assert j.value < data.Length;
      var t := data[i];
      data[i] := data[j.value];
      data[j.value] := t;
      assert data[..] == Swap(before, i, j.value);
      assert Shuffled(old(data[..]), draw, base, i + 1) == Swap(before, i, j.value);
      i := i + 1;
    }
    ShuffledPermutes(old(data[..]), draw, base, i);
    return true;
  }

  /** A permutation of an accepted ASCII password is accepted. */
  lemma PermutedPasswordValid(s: seq<char>, t: seq<char>)
    requires multiset(s) == multiset(t)
    requires PasswordValidation(s) && forall i :: 0 <= i < |s| ==> IsAscii(s[i])
    ensures PasswordValidation(t)
  {
    assert |s| == |multiset(s)| == |t|;
    var d :| 0 <= d < |s| && IsDigit(s[d]);
    var u :| 0 <= u < |s| && IsUpper(s[u]);
    var p :| 0 <= p < |s| && IsSpecial(s[p]);
    assert s[d] in multiset(t) && s[u] in multiset(t) && s[p] in multiset(t);
    forall i | 0 <= i < |t| ensures IsAscii(t[i]) {
      assert t[i] in multiset(s);
    }
    Utf8LenBounds(s);
    Utf8LenBounds(t);
  }

  /**
   * A password of `length` characters with a digit, a capital and a special character
   * placed first, the rest from all four classes, then shuffled.
   */
  method GenerateValidPassword(length: int, draw: (nat, nat) -> Option<nat>) returns (r: Result<string, GenError>)
    requires InRange(draw)
    ensures length < 8 ==> r == Failure(TooShort)
    ensures length >= 8 && !FillDraws(draw, length) ==> r == Failure(RandFailed)
    ensures length >= 8 && FillDraws(draw, length) ==>
      && (r.Success? <==> ShuffleDraws(draw, length, length))
      && (r.Failure? ==> r.error == Panic)
    ensures r.Success? ==>
      && length >= 8 && FillDraws(draw, length)
      && r.value == Shuffled(Filled(draw, length), draw, length, length)
      && PasswordValidation(r.value)
  {
    if length < 8 {
      return Failure(TooShort);
    }
    var password := new char[length];
    var i := 0;
    while i < length
      invariant 0 <= i <= length
      invariant forall j :: 0 <= j < i ==> draw(j, |Pool(j)|).Some? && password[j] == Pool(j)[draw(j, |Pool(j)|).value]
    {
      PoolFacts(i);
      var n := draw(i, |Pool(i)|);
      if n.None? {
        return Failure(RandFailed);
      }
      password[i] := Pool(i)[n.value];
      i := i + 1;
    }
    assert password[..] == Filled(draw, length);
    FilledValid(draw, length);
    var ok := Shuffle(password, draw, length);
    if !ok {
      return Failure(Panic);
    }
    PermutedPasswordValid(Filled(draw, length), password[..]);
    r := Success(password[..]);
  }

  /** The unshuffled password is ASCII and already accepted. */
  lemma FilledValid(draw: (nat, nat) -> Option<nat>, length: nat)
    requires InRange(draw) && FillDraws(draw, length) && length >= 8
    ensures PasswordValidation(Filled(draw, length))
    ensures forall i :: 0 <= i < length ==> IsAscii(Filled(draw, length)[i])
  {
    var s := Filled(draw, length);
    forall i | 0 <= i < length ensures IsAscii(s[i]) {
      PoolFacts(i);
      assert s[i] == Pool(i)[draw(i, |Pool(i)|).value];
    }
    PoolFacts(0);
    PoolFacts(1);
    PoolFacts(2);
    assert IsDigit(s[0]) && IsUpper(s[1]) && IsSpecial(s[2]);
    Utf8LenBounds(s);
  }
}
