/**
 * License-plate validation and the registry of known plates. The registry's set is an owned
 * field of the registry object (the C# code keeps it in a static field); loading it from and
 * saving it to a JSON file is not modelled, so the constructor takes the loaded set.
 */
module LicensePlates {
  import opened Wrappers
  import opened Faults

  /** `char.IsWhiteSpace`: the Unicode space, line and paragraph separators and the control characters U+0009-U+000D and U+0085. */
  predicate IsWhiteSpace(c: char)
  {
    || ('\U{0009}' <= c <= '\U{000D}')
    || c == ' ' || c == '\U{0085}' || c == '\U{00A0}' || c == '\U{1680}'
    || ('\U{2000}' <= c <= '\U{200A}')
    || c == '\U{2028}' || c == '\U{2029}' || c == '\U{202F}' || c == '\U{205F}' || c == '\U{3000}'
  }

  /** `string.IsNullOrWhiteSpace` for a non-null string: empty or white space only. */
  predicate IsBlank(s: string)
  {
    forall i :: 0 <= i < |s| ==> IsWhiteSpace(s[i])
  }

  predicate IsAsciiLetter(c: char)
  {
    ('a' <= c <= 'z') || ('A' <= c <= 'Z')
  }

  predicate IsAsciiDigit(c: char)
  {
    '0' <= c <= '9'
  }

  const RequiredPlateLength := 6

  /** The UTF-16 code units of one character: two for a character outside the Basic Multilingual Plane. */
  function Utf16Units(c: char): nat
  {
    if c < '\U{10000}' then 1 else 2
  }

  /** `string.Length`: the number of UTF-16 code units, not of characters. */
  function Utf16Length(s: string): (n: nat)
    ensures |s| <= n
  {
    if |s| == 0 then 0 else Utf16Units(s[0]) + Utf16Length(s[1..])
  }

  /** The code-unit length equals the character count exactly when no character needs a surrogate pair. */
  lemma {:induction false} Utf16LengthIsCount(s: string)
    ensures Utf16Length(s) <= 2 * |s|
    ensures Utf16Length(s) == |s| <==> forall i :: 0 <= i < |s| ==> s[i] < '\U{10000}'
  {
    if |s| > 0 {
      Utf16LengthIsCount(s[1..]);
      assert forall i :: 1 <= i < |s| ==> s[i] == s[1..][i - 1];
    }
  }

  /**
   * The regular expression `^[a-zA-Z]{3}[0-9]{3}$` on a string of six UTF-16 code units. (On
   * longer strings .NET's `$` would also admit a trailing line feed; the length check runs
   * first, so only six-unit strings reach the pattern. A character outside the Basic
   * Multilingual Plane is a surrogate pair that no class of the pattern matches, which
   * `|s| == 6` together with the ASCII classes captures.)
   */
  predicate MatchesPlatePattern(s: string)
  {
    && |s| == RequiredPlateLength
    && IsAsciiLetter(s[0]) && IsAsciiLetter(s[1]) && IsAsciiLetter(s[2])
    && IsAsciiDigit(s[3]) && IsAsciiDigit(s[4]) && IsAsciiDigit(s[5])
  }

  /**
   * IsValidLicensePlate: blank, then length, then pattern, each with its own exception; it
   * neither reads nor changes the registered set (the uniqueness check is switched off).
   */
  function IsValidLicensePlate(licensePlate: string): (r: Result<bool, Fault>)
    ensures r.Success? <==> MatchesPlatePattern(licensePlate)
    ensures r.Success? ==> r.value
    ensures IsBlank(licensePlate) ==> r == Failure(PlateBlank)
    ensures !IsBlank(licensePlate) && Utf16Length(licensePlate) != RequiredPlateLength ==> r == Failure(PlateLength)
    ensures !IsBlank(licensePlate) && Utf16Length(licensePlate) == RequiredPlateLength && !MatchesPlatePattern(licensePlate) ==> r == Failure(PlateFormat)
    ensures r.Failure? ==> ExceptionOf(r.error) in {ArgumentNullException, ArgumentOutOfRangeException, ArgumentException}
  {
    if IsBlank(licensePlate) then
      assert |licensePlate| > 0 ==> IsWhiteSpace(licensePlate[0]);
      Failure(PlateBlank)
    else if Utf16Length(licensePlate) != RequiredPlateLength then
      // a string the pattern accepts is ASCII, so its code-unit length is its character count
      Utf16LengthIsCount(licensePlate);
      Failure(PlateLength)
    else if !MatchesPlatePattern(licensePlate) then Failure(PlateFormat)
    else Success(true)
  }

  /** The plates the registry test fixtures accept, and the blank ones they reject. */
  lemma ValidationExamples()
    ensures IsValidLicensePlate("BBK159") == Success(true)
    ensures IsValidLicensePlate("azm129") == Success(true)
    ensures IsValidLicensePlate("uRE832") == Success(true)
    ensures IsValidLicensePlate("") == Failure(PlateBlank)
    ensures IsValidLicensePlate("   ") == Failure(PlateBlank)
  {
    assert MatchesPlatePattern("BBK159") && MatchesPlatePattern("azm129") && MatchesPlatePattern("uRE832");
    assert IsBlank("   ") by { assert forall i :: 0 <= i < 3 ==> "   "[i] == ' '; }
  }

  /** The fixtures' plates of the wrong length are refused by the length check. */
  lemma LengthRejectionExamples()
    ensures IsValidLicensePlate("azmm129") == Failure(PlateLength)
    ensures IsValidLicensePlate("uRE32") == Failure(PlateLength)
  {
    assert Utf16Length("azmm129") == 7 && Utf16Length("uRE32") == 5;
    assert !IsBlank("azmm129") by { assert !IsWhiteSpace("azmm129"[0]); }
    assert !IsBlank("uRE32") by { assert !IsWhiteSpace("uRE32"[0]); }
  }

  /** The fixtures' six-character plates of the wrong shape are refused by the pattern. */
  lemma FormatRejectionExamples()
    ensures IsValidLicensePlate("159KBB") == Failure(PlateFormat)
    ensures IsValidLicensePlate("u3E3b2") == Failure(PlateFormat)
  {
    assert Utf16Length("159KBB") == 6 && Utf16Length("u3E3b2") == 6;
    assert !IsBlank("159KBB") by { assert !IsWhiteSpace("159KBB"[0]); }
    assert !IsBlank("u3E3b2") by { assert !IsWhiteSpace("u3E3b2"[0]); }
  }

  /**
   * A character outside the Basic Multilingual Plane counts as two in the length check: five
   * characters of which one is an emoji pass the length check and fail the pattern, and six
   * such characters fail the length check.
   */
  lemma SupplementaryCharacterExamples()
    ensures IsValidLicensePlate("ab\U{1F600}12") == Failure(PlateFormat)
    ensures IsValidLicensePlate("abc\U{1F600}12") == Failure(PlateLength)
  {
    assert !IsBlank("ab\U{1F600}12") by { assert !IsWhiteSpace("ab\U{1F600}12"[0]); }
    assert !IsBlank("abc\U{1F600}12") by { assert !IsWhiteSpace("abc\U{1F600}12"[0]); }
    assert Utf16Length("ab\U{1F600}12") == 6;
    assert Utf16Length("abc\U{1F600}12") == 7;
  }

  class LicensePlateRegistry {
    var registeredLicensePlates: set<string>

    /** The registry starts from the set its storage file held. */
    constructor (loaded: set<string>)
      ensures registeredLicensePlates == loaded
    {
      registeredLicensePlates := loaded;
    }

    /** IsUniqueLicensePlate: InvalidOperationException exactly when an identical (case-sensitive) plate is registered. */
    function IsUniqueLicensePlate(licensePlate: string): (r: Result<bool, Fault>)
      reads this
      ensures r.Success? <==> licensePlate !in registeredLicensePlates
      ensures r.Success? ==> r.value
      ensures r.Failure? ==> r.error == PlateDuplicate && ExceptionOf(r.error) == InvalidOperationException
    {
      if exists l :: l in registeredLicensePlates && l == licensePlate then Failure(PlateDuplicate) else Success(true)
    }

    method RegisterLicensePlate(licensePlate: string)
      modifies this
      ensures registeredLicensePlates == old(registeredLicensePlates) + {licensePlate}
    {
      registeredLicensePlates := registeredLicensePlates + {licensePlate};
    }

    method ClearAllLicensePlates()
      modifies this
      ensures registeredLicensePlates == {}
    {
      registeredLicensePlates := {};
    }

    method RemoveLicensePlate(licensePlate: string)
      modifies this
      ensures registeredLicensePlates == old(registeredLicensePlates) - {licensePlate}
    {
      registeredLicensePlates := registeredLicensePlates - {licensePlate};
    }
  }

  /**
   * What a caller of the registry can rely on from the contracts alone: registering is
   * idempotent and makes the plate non-unique, removing makes it unique again, and
   * validation never consults the registry.
   */
  method RegistryClient(loaded: set<string>)
  {
    var registry := new LicensePlateRegistry(loaded);
    registry.ClearAllLicensePlates();
    assert registry.IsUniqueLicensePlate("AAA111") == Success(true);
    registry.RegisterLicensePlate("AAA111");
    registry.RegisterLicensePlate("AAA111");
    assert registry.registeredLicensePlates == {"AAA111"};
    assert registry.IsUniqueLicensePlate("AAA111") == Failure(PlateDuplicate);
    assert registry.IsUniqueLicensePlate("aaa111").Success?;
    assert IsValidLicensePlate("AAA111") == Success(true);
    registry.RemoveLicensePlate("AAA111");
    registry.RemoveLicensePlate("AAA111");
    assert registry.IsUniqueLicensePlate("AAA111") == Success(true);
  }
}
