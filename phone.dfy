/** The phone-number rule of the registration schema in
    components/UserRegistrationForm.tsx: the regular expression
    `^(\+?\d{1,3}[- ]?)?\d{3}[- ]?\d{4}$`. `PhoneShape` states it piece by
    piece with existential choices, as a backtracking matcher reads it;
    `IsPhone` is a deterministic recogniser, and `IsPhoneCorrect` proves the
    two agree on every string. `\d` is the ASCII class 0-9. */
module Phone {

  predicate IsDigit(c: char) { '0' <= c <= '9' }

  /** `[- ]` */
  predicate IsSep(c: char) { c == '-' || c == ' ' }

  predicate AllDigits(s: string) {
    forall i :: 0 <= i < |s| ==> IsDigit(s[i])
  }

  // ---- the regular expression as a specification ------------------------

  /** `\d{3}[- ]?\d{4}`: the local number. */
  predicate LineShape(b: string) {
    || (|b| == 7 && AllDigits(b))
    || (|b| == 8 && AllDigits(b[..3]) && IsSep(b[3]) && AllDigits(b[4..]))
  }

  /** `\+?\d{1,3}[- ]?` matches `p` with its digits at `p[a..b]`. */
  predicate CountryCodeAt(p: string, a: int, b: int) {
    && 0 <= a <= 1 && a < b <= |p| && b - a <= 3
    && (a == 1 ==> p[0] == '+')
    && AllDigits(p[a..b])
    && (b == |p| || (b == |p| - 1 && IsSep(p[b])))
  }

  /** `(\+?\d{1,3}[- ]?)?` */
  ghost predicate PrefixShape(p: string) {
    p == [] || exists a, b :: CountryCodeAt(p, a, b)
  }

  /** The whole anchored pattern: some split of `s` into an optional country
      code and a local number. */
  ghost predicate PhoneShape(s: string) {
    exists k :: 0 <= k <= |s| && PrefixShape(s[..k]) && LineShape(s[k..])
  }

  // ---- the recogniser -----------------------------------------------------

  /** The length of the local number at the end of `s`: a separator five
      characters from the end can only be the one inside `\d{3}[- ]?\d{4}`. */
  function LineLength(s: string): nat
    requires |s| >= 5
  {
    if IsSep(s[|s| - 5]) then 8 else 7
  }

  /** A non-empty country code: an optional leading '+', an optional
      trailing separator, and one to three digits between them. */
  predicate IsCountryCode(p: string) {
    && p != []
    && var a := if p[0] == '+' then 1 else 0;
       var b := if IsSep(p[|p| - 1]) then |p| - 1 else |p|;
       a < b && b - a <= 3 && AllDigits(p[a..b])
  }

  predicate IsPhone(s: string) {
    && |s| >= 7
    && var n := LineLength(s);
       n <= |s| && LineShape(s[|s| - n..]) && (n == |s| || IsCountryCode(s[..|s| - n]))
  }

  // ---- correctness --------------------------------------------------------

  lemma CountryCodeCorrect(p: string)
    requires p != []
    ensures IsCountryCode(p) <==> exists a, b :: CountryCodeAt(p, a, b)
  {
    var a := if p[0] == '+' then 1 else 0;
    var b := if IsSep(p[|p| - 1]) then |p| - 1 else |p|;
    if IsCountryCode(p) {
      assert CountryCodeAt(p, a, b);
    }
    if exists a', b' :: CountryCodeAt(p, a', b') {
      var a', b' :| CountryCodeAt(p, a', b');
      assert IsDigit(p[a..b'][0]);
      assert a' == a;
      assert IsDigit(p[a..b'][b' - 1 - a]);
      assert b' == b;
    }
  }

  /** The recogniser accepts exactly the strings the regular expression
      matches. */
  lemma IsPhoneCorrect(s: string)
    ensures IsPhone(s) <==> PhoneShape(s)
  {
    if IsPhone(s) {
      IsPhoneSound(s);
    }
    if PhoneShape(s) {
      var k :| 0 <= k <= |s| && PrefixShape(s[..k]) && LineShape(s[k..]);
      IsPhoneComplete(s, k);
    }
  }

  lemma IsPhoneSound(s: string)
    requires IsPhone(s)
    ensures PhoneShape(s)
  {
    var k := |s| - LineLength(s);
    if k > 0 {
      CountryCodeCorrect(s[..k]);
    }
    assert PrefixShape(s[..k]) && LineShape(s[k..]);
  }

  lemma IsPhoneComplete(s: string, k: int)
    requires 0 <= k <= |s| && PrefixShape(s[..k]) && LineShape(s[k..])
    ensures IsPhone(s)
  {
    var line := s[k..];
    if |line| == 7 {
      assert line[2] == s[|s| - 5] && IsDigit(line[2]);
    } else {
      assert line[3] == s[|s| - 5];
    }
    assert LineLength(s) == |s| - k;
    assert s[|s| - LineLength(s)..] == line;
    if k > 0 {
      CountryCodeCorrect(s[..k]);
    }
  }

  /** Every accepted number is 7 to 13 characters long (the longest is
      "+ddd-ddd-dddd"), is made of digits, '-', ' ' and '+', and carries '+'
      only in its first position. */
  lemma PhoneAlphabet(s: string)
    requires IsPhone(s)
    ensures 7 <= |s| <= 13
    ensures forall i :: 0 <= i < |s| ==> IsDigit(s[i]) || IsSep(s[i]) || (s[i] == '+' && i == 0)
  {
    var n := LineLength(s);
    var k := |s| - n;
    var line := s[k..];
    forall i | k <= i < |s|
      ensures IsDigit(s[i]) || IsSep(s[i])
    {
      assert s[i] == line[i - k];
      if n == 8 && i - k >= 4 {
        assert line[i - k] == line[4..][i - k - 4];
      } else if n == 8 && i - k < 3 {
        assert line[i - k] == line[..3][i - k];
      }
    }
    if k > 0 {
      var p := s[..k];
      var a := if p[0] == '+' then 1 else 0;
      var b := if IsSep(p[|p| - 1]) then |p| - 1 else |p|;
      forall i | 0 <= i < k
        ensures IsDigit(s[i]) || IsSep(s[i]) || (s[i] == '+' && i == 0)
      {
        assert s[i] == p[i];
        if a <= i < b {
          assert p[i] == p[a..b][i - a];
        }
      }
    }
  }

  /** The examples the form accepts and rejects. */
  lemma PhoneExamples()
    ensures IsPhone("555-1234")
    ensures IsPhone("5551234")
    ensures IsPhone("+1 555-1234")
    ensures !IsPhone("123")
    ensures !IsPhone("++1 555-1234")
  {
    var s := "+1 555-1234";
    assert s[..|s| - 8] == "+1 ";
    assert s[|s| - 8..] == "555-1234";
    var t := "++1 555-1234";
    assert t[..|t| - 8] == "++1 ";
    assert "++1 "[1..3] == "+1";
    assert !IsDigit("+1"[0]);
  }
}
