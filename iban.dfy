/**
 * The IBAN check-digit arithmetic shared by the validator and the seed
 * generator: the MOD 97-10 scheme of ISO/IEC 7064 as ISO 13616-1 uses it.
 * An IBAN is rearranged (first four characters moved to the end), every
 * letter is replaced by its two-digit number (A = 10 ... Z = 35), and the
 * resulting decimal numeral is taken modulo 97.
 */
module Iban {
  import opened Wrappers
  import opened Text

  /** The whole string has the form `[A-Z]{2}[0-9]{2}[A-Z0-9]{11,30}`. */
  predicate IbanShape(s: string) {
    && 15 <= |s| <= 34
    && IsUpper(s[0]) && IsUpper(s[1]) && IsDigit(s[2]) && IsDigit(s[3])
    && forall i :: 4 <= i < |s| ==> IsUpperAlnum(s[i])
  }

  /**
   * `re.match(r"^[A-Z]{2}[0-9]{2}[A-Z0-9]{11,30}$", s)`: Python's `$` also
   * matches just before a final "\n", so one trailing newline is let through.
   */
  predicate IbanPattern(s: string) {
    IbanShape(s) || (|s| > 0 && s[|s| - 1] == '\n' && IbanShape(s[..|s| - 1]))
  }

  /** `s[4:] + s[:4]` (for a shorter string both slices clamp and give `s`). */
  function Rearranged(s: string): (r: string)
    ensures |r| == |s|
  {
    if |s| >= 4 then s[4..] + s[..4] else s
  }

  /** What the loop appends for one character: the digit itself, else `str(ord(c) - 55)`. */
  function CharNumeral(c: char): string {
    if IsDigit(c) then [c] else IntToDecimal(c as int - 55)
  }

  /** The letter-to-number numeral of `s`, built left to right. */
  function Numerized(s: string): string {
    if s == [] then "" else Numerized(s[..|s| - 1]) + CharNumeral(s[|s| - 1])
  }

  lemma {:induction false} NumerizedConcat(a: string, b: string)
    ensures Numerized(a + b) == Numerized(a) + Numerized(b)
  {
    if b == [] {
      assert a + b == a;
    } else {
      var b', c := b[..|b| - 1], b[|b| - 1];
      assert Numerized(a + b) == Numerized(a + b') + CharNumeral(c) by {
        assert a + b == (a + b') + [c];
        NumerizedSnoc(a + b', c);
      }
      assert Numerized(b) == Numerized(b') + CharNumeral(c) by {
        assert b == b' + [c];
        NumerizedSnoc(b', c);
      }
      NumerizedConcat(a, b');
      AppendAssociates(Numerized(a), Numerized(b'), CharNumeral(c));
    }
  }

  lemma NumerizedSnoc(s: string, c: char)
    ensures Numerized(s + [c]) == Numerized(s) + CharNumeral(c)
  {
    assert (s + [c])[..|s|] == s;
  }

  /** A letter becomes two digits, 10 for A up to 35 for Z. */
  lemma LetterNumeral(c: char)
    requires IsUpper(c)
    ensures |CharNumeral(c)| == 2 && AllDigits(CharNumeral(c))
    ensures NumeralValue(CharNumeral(c)) == c as int - 55
  {
  }

  lemma {:induction false} NumerizedUpperAlnum(s: string)
    requires AllUpperAlnum(s)
    ensures AllDigits(Numerized(s))
    ensures |Numerized(s)| >= |s|
  {
    if s != [] {
      NumerizedUpperAlnum(s[..|s| - 1]);
      if IsUpper(s[|s| - 1]) {
        LetterNumeral(s[|s| - 1]);
      }
    }
  }

  /** Rearranging a string with a trailing newline moves the newline before the first four characters. */
  lemma RearrangedNewline(t: string)
    requires |t| >= 4
    ensures Rearranged(t + "\n") == t[4..] + "\n" + t[..4]
  {
    var s := t + "\n";
    assert s[4..] == t[4..] + "\n";
    assert s[..4] == t[..4];
  }

  /** Rearranging a string of IBAN shape leaves only upper-case letters and digits. */
  lemma RearrangedShaped(s: string)
    requires IbanShape(s)
    ensures AllUpperAlnum(Rearranged(s))
  {
    var r := Rearranged(s);
    forall i | 0 <= i < |r| ensures IsUpperAlnum(r[i]) {
      if i < |s| - 4 {
        assert r[i] == s[i + 4];
      } else {
        assert r[i] == s[i - (|s| - 4)];
      }
    }
  }

  lemma {:induction false} NumerizedDigits(s: string)
    requires AllDigits(s)
    ensures Numerized(s) == s
  {
    if s != [] {
      NumerizedDigits(s[..|s| - 1]);
    }
  }

  /** A newline becomes "-45", so a numeral built from a string holding one cannot be parsed. */
  lemma NumerizedNewline(a: string, b: string)
    ensures !AllDigits(Numerized(a + "\n" + b))
  {
    NumerizedConcat(a + "\n", b);
    NumerizedConcat(a, "\n");
    assert Numerized("\n") == Numerized("") + CharNumeral('\n');
    assert CharNumeral('\n') == "-45";
    var n := Numerized(a + "\n" + b);
    assert n[|Numerized(a)|] == '-';
  }

  /**
   * The check digits make the whole numeral congruent to 1 modulo 97: for
   * the numeral `y` with "00" in place of the check digits, 98 - y mod 97
   * is a two-digit value that completes `y` to 1 modulo 97.
   */
  lemma Mod97Completes(y: nat)
    ensures 2 <= 98 - y % 97 <= 98
    ensures (y + (98 - y % 97)) % 97 == 1
  {
    var r := y % 97;
    assert y == y / 97 * 97 + r;
    assert y + (98 - r) == (y / 97 + 1) * 97 + 1;
  }
}
