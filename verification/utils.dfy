/** Identifier generation and phone-number validation (utils.ts).
    `Math.random()` is replaced by the draws it would have produced: each
    draw is the index `Math.floor(Math.random() * 62)` into the alphabet. */
module Utils {
  import Seqs

  /** The 62-character alphabet of both generators, written in runs of at
      most ten characters (the same string as one literal). */
  const ALPHABET: string := "ABCDEFGHIJ" + "KLMNOPQRST" + "UVWXYZ" + "abcdefghij" + "klmnopqrst" + "uvwxyz" + "0123456789"

  /** One draw of the random generator, an index into `ALPHABET`. */
  type CharIndex = i: int | 0 <= i < 62

  predicate IsDigit(c: char) {
    '0' <= c <= '9'
  }

  predicate IsAlphanumeric(c: char) {
    'A' <= c <= 'Z' || 'a' <= c <= 'z' || '0' <= c <= '9'
  }

  /** The alphabet is exactly the 62 ASCII letters and digits. */
  lemma AlphabetIsAlphanumeric()
    ensures |ALPHABET| == 62
    ensures forall c :: c in ALPHABET <==> IsAlphanumeric(c)
  {
    assert forall c :: c in "ABCDEFGHIJ" <==> 'A' <= c <= 'J';
    assert forall c :: c in "KLMNOPQRST" <==> 'K' <= c <= 'T';
    assert forall c :: c in "UVWXYZ" <==> 'U' <= c <= 'Z';
    assert forall c :: c in "abcdefghij" <==> 'a' <= c <= 'j';
    assert forall c :: c in "klmnopqrst" <==> 'k' <= c <= 't';
    assert forall c :: c in "uvwxyz" <==> 'u' <= c <= 'z';
    assert forall c :: c in "0123456789" <==> '0' <= c <= '9';
  }

  /** The regular expression `^\d{n}$`: the whole string is `n` digits. */
  predicate DigitRun(s: string, n: nat)
    decreases n
  {
    if n == 0 then s == [] else s != [] && IsDigit(s[0]) && DigitRun(s[1..], n - 1)
  }

  lemma {:induction false} DigitRunIff(s: string, n: nat)
    ensures DigitRun(s, n) <==> |s| == n && forall i :: 0 <= i < |s| ==> IsDigit(s[i])
    decreases n
  {
    if n > 0 && s != [] {
      DigitRunIff(s[1..], n - 1);
      assert forall i :: 1 <= i < |s| ==> s[i] == s[1..][i - 1];
    }
  }

  /** `validateWhatsAppNumber`: exactly 11 digits. */
  predicate ValidateWhatsAppNumber(num: string) {
    DigitRun(num, 11)
  }

  lemma WhatsAppNumberIff(num: string)
    ensures ValidateWhatsAppNumber(num) <==> |num| == 11 && forall i :: 0 <= i < |num| ==> IsDigit(num[i])
  {
    DigitRunIff(num, 11);
  }

  /** A wrong length or any non-digit is rejected. */
  lemma WhatsAppNumberRejects(num: string, i: int)
    ensures |num| == 10 || |num| == 12 ==> !ValidateWhatsAppNumber(num)
    ensures 0 <= i < |num| && !IsDigit(num[i]) ==> !ValidateWhatsAppNumber(num)
  {
    WhatsAppNumberIff(num);
  }

  /** The documented example passes. */
  lemma WhatsAppNumberExample()
    ensures ValidateWhatsAppNumber("94712345678")
  {
    assert forall c :: c in "94712345678" ==> IsDigit(c);
    WhatsAppNumberIff("94712345678");
  }

  /** A letter in place of its last digit, or a digit fewer, fails. */
  lemma WhatsAppNumberCounterexamples()
    ensures !ValidateWhatsAppNumber("9471234567a")
    ensures !ValidateWhatsAppNumber("9471234567")
  {
    WhatsAppNumberIff("9471234567a");
    assert !IsDigit("9471234567a"[10]);
    WhatsAppNumberIff("9471234567");
  }

  /** `replace(/\D/g, '')`, which the phone and reference inputs apply on
      every edit: the digits of the input, in order. */
  function DigitsOnly(s: string): (r: string)
    ensures forall i :: 0 <= i < |r| ==> IsDigit(r[i])
    ensures forall i :: 0 <= i < |s| && IsDigit(s[i]) ==> s[i] in r
    ensures Seqs.IsSubsequence(r, s)
    ensures (forall i :: 0 <= i < |s| ==> IsDigit(s[i])) ==> r == s
    ensures forall c :: multiset(r)[c] == if IsDigit(c) then multiset(s)[c] else 0
  {
    Seqs.FilterCounts(IsDigit, s);
    Seqs.Filter(IsDigit, s)
  }

  /** Stripping twice is stripping once: an edit that adds no character
      leaves the field as it was. */
  lemma DigitsOnlyIdempotent(s: string)
    ensures DigitsOnly(DigitsOnly(s)) == DigitsOnly(s)
  {
  }

  /** The characters the draws select, in order. */
  function Pick(draws: seq<CharIndex>): (r: string)
    ensures |r| == |draws|
    ensures forall i :: 0 <= i < |r| ==> r[i] == ALPHABET[draws[i]] && IsAlphanumeric(r[i])
  {
    AlphabetIsAlphanumeric();
    seq(|draws|, i requires 0 <= i < |draws| => ALPHABET[draws[i]])
  }

  /** `generateOrderId`: fifteen characters, one per draw. */
  method GenerateOrderId(draws: seq<CharIndex>) returns (result: string)
    requires |draws| == 15
    ensures |result| == 15
    ensures forall i :: 0 <= i < |result| ==> IsAlphanumeric(result[i])
    ensures result == Pick(draws)
  {
    result := "";
    for i := 0 to 15
      invariant result == Pick(draws[..i])
    {
      result := result + [ALPHABET[draws[i]]];
      assert draws[..i + 1] == draws[..i] + [draws[i]];
    }
    assert draws[..15] == draws;
  }

  const CUSTOMER_PREFIX: string := "CUS"

  /** The customer id that twelve draws produce. */
  function CustomerIdOf(draws: seq<CharIndex>): string
  {
    CUSTOMER_PREFIX + Pick(draws)
  }

  /** `generateCustomerId`: "CUS" followed by twelve drawn characters. */
  method GenerateCustomerId(draws: seq<CharIndex>) returns (id: string)
    requires |draws| == 12
    ensures |id| == 15 && id[..3] == "CUS"
    ensures forall i :: 3 <= i < 15 ==> IsAlphanumeric(id[i])
    ensures id == CustomerIdOf(draws)
  {
    var randomPart := "";
    for i := 0 to 12
      invariant randomPart == Pick(draws[..i])
    {
      randomPart := randomPart + [ALPHABET[draws[i]]];
      assert draws[..i + 1] == draws[..i] + [draws[i]];
    }
    assert draws[..12] == draws;
    id := CUSTOMER_PREFIX + randomPart;
  }
}
