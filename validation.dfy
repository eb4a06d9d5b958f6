/**
  The field checks of the quote wizard, written out character by character
  instead of as regular expressions:
    ZIP code   `^\d{5}(-\d{4})?$`
    e-mail     `^[^\s@]+@[^\s@]+\.[^\s@]+$`
    phone      at least ten digits once every non-digit is removed.
 */
module Validation {
  import opened Text

  // ---------------------------------------------------------------- ZIP code

  /** `/^\d{5}(-\d{4})?$/.test(s)`: five digits, optionally followed by a hyphen
      and four more digits. */
  predicate ZipShape(s: string) {
    || (|s| == 5 && AllDigits(s))
    || (|s| == 10 && AllDigits(s[..5]) && s[5] == '-' && AllDigits(s[6..]))
  }

  /** A well-formed ZIP code is never blank, so the source's "valid ZIP" error
      and its "enter the ZIP" error never apply to the same value. */
  lemma ZipShapeNotBlank(s: string)
    ensures ZipShape(s) ==> !IsBlank(s)
  {
    if ZipShape(s) {
      assert IsDigit(s[0]);
    }
  }

  /** The pattern accepts both ZIP forms and rejects a four-digit code. */
  lemma ZipExamples()
    ensures ZipShape("33601")
    ensures ZipShape("33601-1234")
    ensures !ZipShape("3360")
    ensures !ZipShape("33601-123")
    ensures !ZipShape("3360a")
  {
    assert !IsDigit("3360a"[4]);
  }

  /** The emptiness test trims, the pattern test does not: a correct ZIP code
      typed with a leading blank is non-blank, its trimmed form matches, and it
      is still rejected as malformed. */
  lemma ZipPaddedRejected()
    ensures !IsBlank(" 33601") && Trim(" 33601") == "33601"
    ensures ZipShape(Trim(" 33601")) && !ZipShape(" 33601")
  {
    PaddedZipTrims();
    ZipExamples();
    var s := " 33601";
    assert !IsSpace(s[1]);
    assert !IsDigit(s[0]);
  }

  lemma PaddedZipTrims()
    ensures Trim(" 33601") == "33601"
  {
    var s := " 33601";
    assert IsSpace(s[0]);
    assert s[1..] == "33601";
    TrimStartOfTrimmed("33601");
    TrimEndOfTrimmed("33601");
  }

  // ----------------------------------------------------------------- e-mail

  /** One of the regular-expression runs `[^\s@]+`. */
  predicate Word(w: string) {
    |w| > 0 && forall k :: 0 <= k < |w| ==> !IsSpace(w[k]) && w[k] != '@'
  }

  /** The regular expression read literally: some `@` at `i` and some `.` at `j`
      split `s` into three non-empty runs free of white space and `@`. */
  ghost predicate EmailPattern(s: string) {
    exists i, j :: 0 < i && i + 1 < j < |s| - 1 && s[i] == '@' && s[j] == '.'
      && Word(s[..i]) && Word(s[i + 1..j]) && Word(s[j + 1..])
  }

  predicate NoSpace(s: string) {
    forall k :: 0 <= k < |s| ==> !IsSpace(s[k])
  }

  /** A dot with at least one character on each side. */
  predicate HasInnerDot(d: string) {
    exists j :: 0 < j < |d| - 1 && d[j] == '.'
  }

  /** The e-mail test as the wizard runs it: no white space, one `@` with
      something before it, and after it a dot that is neither first nor last. */
  predicate EmailShape(s: string) {
    var k := IndexOf(s, '@');
    && 0 < k < |s|
    && NoSpace(s)
    && '@' !in s[k + 1..]
    && HasInnerDot(s[k + 1..])
  }

  /** The character-level test agrees with the regular expression, in both
      directions. */
  lemma EmailShapeIff(s: string)
    ensures EmailShape(s) <==> EmailPattern(s)
  {
    if EmailShape(s) {
      EmailShapeToPattern(s);
    }
    if EmailPattern(s) {
      EmailPatternToShape(s);
    }
  }

  lemma EmailShapeToPattern(s: string)
    requires EmailShape(s)
    ensures EmailPattern(s)
  {
    var k := IndexOf(s, '@');
    var d := s[k + 1..];
    var j' :| 0 < j' < |d| - 1 && d[j'] == '.';
    var j := k + 1 + j';
    assert s[j] == '.';
    assert Word(s[..k]);
    forall m | k + 1 <= m < |s| ensures s[m] != '@' {
      assert s[m] == d[m - k - 1];
    }
    assert Word(s[k + 1..j]);
    assert Word(s[j + 1..]);
  }

  /** The characters of a run. */
  lemma WordSlice(s: string, lo: int, hi: int)
    requires 0 <= lo <= hi <= |s| && Word(s[lo..hi])
    ensures forall m :: lo <= m < hi ==> !IsSpace(s[m]) && s[m] != '@'
  {
    forall m | lo <= m < hi ensures !IsSpace(s[m]) && s[m] != '@' {
      assert s[m] == s[lo..hi][m - lo];
    }
  }

  lemma EmailPatternToShape(s: string)
    requires EmailPattern(s)
    ensures EmailShape(s)
  {
    var i, j :| 0 < i && i + 1 < j < |s| - 1 && s[i] == '@' && s[j] == '.'
      && Word(s[..i]) && Word(s[i + 1..j]) && Word(s[j + 1..]);
    assert s[..i] == s[0..i];
    assert s[j + 1..] == s[j + 1..|s|];
    WordSlice(s, 0, i);
    WordSlice(s, i + 1, j);
    WordSlice(s, j + 1, |s|);
    var k := IndexOf(s, '@');
    assert k == i;
    assert NoSpace(s) by {
      forall m | 0 <= m < |s| ensures !IsSpace(s[m]) {
        if m == i {
          assert !IsSpace('@');
        } else if m == j {
          assert !IsSpace('.');
        } else if m < i {
          assert 0 <= m < i;
        } else if m < j {
          assert i + 1 <= m < j;
        } else {
          assert j + 1 <= m < |s|;
        }
      }
    }
    var d := s[i + 1..];
    assert '@' !in d by {
      forall m | 0 <= m < |d| ensures d[m] != '@' {
        assert d[m] == s[i + 1 + m];
      }
    }
    assert d[j - i - 1] == '.';
  }

  /** A well-formed address has at least five characters and is never
      blank. */
  lemma EmailShapeNotBlank(s: string)
    ensures EmailShape(s) ==> |s| >= 5 && !IsBlank(s)
  {
    if EmailShape(s) {
      assert !IsSpace(s[0]);
    }
  }

  /** A plain address passes. */
  lemma EmailAccepted()
    ensures EmailShape("jo@ex.com")
  {
    var s := "jo@ex.com";
    assert s[..2] == "jo" && s[3..5] == "ex" && s[6..] == "com";
    assert Word("jo") && Word("ex") && Word("com");
    assert s[2] == '@' && s[5] == '.';
    EmailPatternToShape(s);
  }

  /** Any address without `@` is rejected. */
  lemma EmailRejectedNoAt(s: string)
    requires '@' !in s
    ensures !EmailShape(s)
  {
  }

  /** Any address with no dot after its first `@` is rejected. */
  lemma EmailRejectedNoDot(s: string)
    requires forall m :: IndexOf(s, '@') < m < |s| ==> s[m] != '.'
    ensures !EmailShape(s)
  {
    var k := IndexOf(s, '@');
    if 0 < k < |s| {
      var d := s[k + 1..];
      assert forall j :: 0 <= j < |d| ==> d[j] == s[k + 1 + j];
      assert !HasInnerDot(d);
    }
  }

  /** Any address with white space anywhere in it is rejected. */
  lemma EmailRejectedBlank(s: string, m: int)
    requires 0 <= m < |s| && IsSpace(s[m])
    ensures !EmailShape(s)
  {
  }

  // ------------------------------------------------------------------ phone

  /** `validatePhone`: at least ten characters remain once every non-digit is
      removed. */
  predicate ValidatePhone(phone: string) {
    |Digits(phone)| >= 10
  }

  /** A phone number that passes is never blank, so "Phone is required" and
      "enter a valid phone number" never apply to the same value. */
  lemma ValidatePhoneNotBlank(phone: string)
    ensures ValidatePhone(phone) ==> !IsBlank(phone)
  {
    if ValidatePhone(phone) {
      var d := Digits(phone);
      DigitsFromSource(phone);
      assert d[0] in phone;
      var i :| 0 <= i < |phone| && phone[i] == d[0];
      assert IsDigit(phone[i]) && !IsSpace(phone[i]);
    }
  }

  /** Formatting characters do not matter: inserting a non-digit anywhere keeps
      the verdict. */
  lemma ValidatePhoneIgnoresFormatting(a: string, c: char, b: string)
    requires !IsDigit(c)
    ensures ValidatePhone(a + [c] + b) <==> ValidatePhone(a + b)
  {
    DigitsAppend(a + [c], b);
    DigitsAppend(a, [c]);
    DigitsAppend(a, b);
    assert Digits([c]) == [];
  }

  /** Ten digits pass however they are punctuated. */
  lemma PhoneAccepted()
    ensures ValidatePhone("(813) 555-0100")
  {
    AreaCodeDigits();
    LocalNumberDigits();
    DigitsAppend("(813) ", "555-0100");
    assert "(813) " + "555-0100" == "(813) 555-0100";
  }

  lemma AreaCodeDigits()
    ensures Digits("(813) ") == "813"
  {
    DigitsAppend("(813", ") ");
    assert "(813" + ") " == "(813) ";
  }

  lemma LocalNumberDigits()
    ensures |Digits("555-0100")| == 7
  {
    DigitsAppend("555", "-0100");
    assert "555" + "-0100" == "555-0100";
  }

  /** Seven digits do not. */
  lemma PhoneRejected()
    ensures !ValidatePhone("555-0100")
  {
    LocalNumberDigits();
  }
}
