/** UK phone-number normalisation (`parse_phone_number` in functions.py). */
module PhoneNumbers {
  import opened Chars

  /** The digits of `s`, in order (`''.join(filter(str.isdigit, s))`). */
  function Digits(s: string): (d: string)
    ensures AllDigits(d) && |d| <= |s|
    ensures |s| == 1 ==> d == (if IsDigit(s[0]) then s else [])
  {
    if s == [] then [] else (if IsDigit(s[0]) then [s[0]] else []) + Digits(s[1..])
  }

  predicate StartsWithCountryCode(d: string) { |d| >= 2 && d[0] == '4' && d[1] == '4' }

  /** Keep the digits, drop one leading "44", then make sure the number starts
      with a '0'. Never fails. */
  function NormalisePhone(raw: string): (r: string)
    ensures r != [] && r[0] == '0' && AllDigits(r)
    ensures Digits(raw) == [] ==> r == "0"
  {
    var d := Digits(raw);
    var national := if StartsWithCountryCode(d) then d[2..] else d;
    if national != [] && national[0] == '0' then national else "0" + national
  }

  lemma {:induction false} DigitsOfConcat(a: string, b: string)
    ensures Digits(a + b) == Digits(a) + Digits(b)
  {
    if a == [] {
      assert a + b == b;
    } else {
      assert (a + b)[1..] == a[1..] + b;
      DigitsOfConcat(a[1..], b);
    }
  }

  /** A string of digits only is its own digit string. */
  lemma {:induction false} DigitsOfDigitString(s: string)
    requires AllDigits(s)
    ensures Digits(s) == s
  {
    if s != [] {
      assert AllDigits(s[1..]) by {
        forall i | 0 <= i < |s[1..]| ensures IsDigit(s[1..][i]) {
          assert s[1..][i] == s[i + 1];
        }
      }
      DigitsOfDigitString(s[1..]);
      assert s == [s[0]] + s[1..];
    }
  }

  /** Normalising an already normalised number changes nothing. */
  lemma NormalisePhoneIdempotent(raw: string)
    ensures NormalisePhone(NormalisePhone(raw)) == NormalisePhone(raw)
  {
    DigitsOfDigitString(NormalisePhone(raw));
  }

  /** The country code is removed exactly once: the national digits that
      follow it are kept verbatim, even when they begin with "44" again. */
  lemma CountryCodeDroppedOnce(raw: string, national: string)
    requires Digits(raw) == "44" + national
    ensures national != [] && national[0] == '0' ==> NormalisePhone(raw) == national
    ensures (national == [] || national[0] != '0') ==> NormalisePhone(raw) == "0" + national
  {
    assert ("44" + national)[2..] == national;
  }

  /** A number with no "44" prefix keeps all its digits, with a '0' prepended
      when it lacks one. */
  lemma NoCountryCodeKeepsDigits(raw: string)
    requires !StartsWithCountryCode(Digits(raw))
    ensures var d := Digits(raw);
      NormalisePhone(raw) == (if d != [] && d[0] == '0' then d else "0" + d)
  {
  }

  /** An international UK number: "44" followed by ten national digits that do
      not begin with '0' becomes an 11-digit local number. */
  lemma InternationalBecomesElevenDigits(raw: string, national: string)
    requires Digits(raw) == "44" + national
    requires |national| == 10 && national[0] != '0'
    ensures NormalisePhone(raw) == "0" + national && |NormalisePhone(raw)| == 11
  {
    CountryCodeDroppedOnce(raw, national);
  }

  /** The docstring's example. */
  lemma PhoneExample(raw: string)
    requires raw == "+44 7802 312241"
    ensures NormalisePhone(raw) == "07802312241"
  {
    ExampleDigits(raw);
    CountryCodeDroppedOnce(raw, "7802312241");
    assert NormalisePhone(raw) == "0" + "7802312241";
  }

  lemma ExampleDigits(raw: string)
    requires raw == "+44 7802 312241"
    ensures Digits(raw) == "44" + "7802312241"
  {
    assert Digits("+" + "44" + " " + "7802" + " " + "312241") == "44" + "7802312241" by {
      assert Digits("+") == [] && Digits(" ") == [];
      DigitsOfPieces("+", "44", " ", "7802", " ", "312241");
    }
    assert raw == "+" + "44" + " " + "7802" + " " + "312241";
  }

  /** Digits of a number written as digit groups separated by punctuation. */
  lemma DigitsOfPieces(p0: string, g1: string, p1: string, g2: string, p2: string, g3: string)
    requires Digits(p0) == [] && Digits(p1) == [] && Digits(p2) == []
    requires AllDigits(g1) && AllDigits(g2) && AllDigits(g3)
    ensures Digits(p0 + g1 + p1 + g2 + p2 + g3) == g1 + g2 + g3
  {
    DigitsOfDigitString(g1);
    DigitsOfDigitString(g2);
    DigitsOfDigitString(g3);
    var s1 := p0 + g1;
    DigitsOfConcat(p0, g1);
    assert Digits(s1) == g1;
    var s2 := s1 + p1;
    DigitsOfConcat(s1, p1);
    assert Digits(s2) == g1;
    var s3 := s2 + g2;
    DigitsOfConcat(s2, g2);
    assert Digits(s3) == g1 + g2;
    var s4 := s3 + p2;
    DigitsOfConcat(s3, p2);
    assert Digits(s4) == g1 + g2;
    var s5 := s4 + g3;
    DigitsOfConcat(s4, g3);
    assert Digits(s5) == g1 + g2 + g3;
  }

  /** "0044" is not recognised as a country-code prefix: only a leading "44"
      is, so the zeros and the 44 all survive. */
  lemma DoubleZeroPrefixKept(raw: string)
    requires raw == "0044 7802 312241"
    ensures NormalisePhone(raw) == "00447802312241"
  {
    DoubleZeroDigits(raw);
    NoCountryCodeKeepsDigits(raw);
    assert NormalisePhone(raw) == Digits(raw);
  }

  lemma DoubleZeroDigits(raw: string)
    requires raw == "0044 7802 312241"
    ensures Digits(raw) == "00447802312241"
  {
    assert Digits("" + "0044" + " " + "7802" + " " + "312241") == "00447802312241" by {
      assert Digits("") == [] && Digits(" ") == [];
      DigitsOfPieces("", "0044", " ", "7802", " ", "312241");
    }
    assert raw == "" + "0044" + " " + "7802" + " " + "312241";
  }

  /** "4444…" loses only its first pair of fours. */
  lemma RepeatedCountryCode(raw: string)
    requires raw == "44 44 123"
    ensures NormalisePhone(raw) == "044123"
  {
    DigitsOfPieces("", "44", " ", "44", " ", "123");
    assert Digits("") == [] && Digits(" ") == [];
    assert raw == "" + "44" + " " + "44" + " " + "123";
    assert "44" + "44" + "123" == "44" + "44123";
    CountryCodeDroppedOnce(raw, "44123");
    assert NormalisePhone(raw) == "0" + "44123";
  }
}
