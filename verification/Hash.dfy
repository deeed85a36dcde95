/** The duplicate fingerprint of an enquiry (fingerprintEnquiry in src/utils/hash.ts):
    four normalised fields joined with bars and hashed, and what two equal fingerprints
    say about the enquiries. */
module Hash {
  import opened Wrappers
  import opened Text
  import opened TextMeaning

  /** A body that passed createEnquirySchema. */
  datatype EnquiryInput = EnquiryInput(fullName: string, email: string, phone: Option<string>,
                                       propertyId: nat, message: string)

  /** What validation guarantees and the fingerprint relies on: an address has no bar
      and property ids are positive. */
  predicate Validated(i: EnquiryInput) {
    '|' !in i.email && i.propertyId > 0
  }

  /** SHA-256 taken as collision-free: a digest is known by what was hashed. */
  datatype Digest = Sha256(preimage: string)

  // ------------------------------------------------------------------ decimals

  function DigitChar(d: nat): (c: char)
    requires d < 10
    ensures IsDigit(c)
  {
    '0' + d as char
  }

  /** String(n) for a non-negative integer. */
  function Decimal(n: nat): string {
    if n < 10 then [DigitChar(n)] else Decimal(n / 10) + [DigitChar(n % 10)]
  }

  function ParseDecimal(s: string): nat
    requires forall i :: 0 <= i < |s| ==> IsDigit(s[i])
  {
    if s == [] then 0
    else
      assert IsDigit(s[|s| - 1]);
      10 * ParseDecimal(s[..|s| - 1]) + (s[|s| - 1] as int - '0' as int)
  }

  lemma {:induction false} DecimalRoundTrip(n: nat)
    ensures forall i :: 0 <= i < |Decimal(n)| ==> IsDigit(Decimal(n)[i])
    ensures ParseDecimal(Decimal(n)) == n
  {
    var last := [DigitChar(n % 10)];
    if n < 10 {
      assert last[..0] == [];
    } else {
      DecimalRoundTrip(n / 10);
      assert Decimal(n)[..|Decimal(n)| - 1] == Decimal(n / 10);
    }
  }

  // ------------------------------------------------------------------- joining

  datatype Fields = Fields(email: string, phone: string, propertyId: nat, message: string)

  function PhoneText(i: EnquiryInput): string { if i.phone.Some? then i.phone.value else "" }

  function Normalise(i: EnquiryInput): Fields {
    Fields(NormaliseEmail(i.email),
           Digits(PhoneText(i)),
           i.propertyId,
           NormaliseMessage(i.message))
  }

  function Joined(f: Fields): string {
    f.email + "|" + f.phone + "|" + Decimal(f.propertyId) + "|" + f.message
  }

  function Fingerprint(i: EnquiryInput): Digest { Sha256(Joined(Normalise(i))) }

  /** The stretch before the first separator. */
  function Before(s: string, sep: char): (r: string)
    ensures |r| <= |s|
  {
    if s == [] || s[0] == sep then [] else [s[0]] + Before(s[1..], sep)
  }

  function After(s: string, sep: char): string {
    if |Before(s, sep)| < |s| then s[|Before(s, sep)| + 1..] else []
  }

  /** Reads the four fields back by cutting at the first three bars. */
  function Parse(s: string): (string, string, string, string) {
    var s1 := After(s, '|');
    var s2 := After(s1, '|');
    (Before(s, '|'), Before(s1, '|'), Before(s2, '|'), After(s2, '|'))
  }

  lemma {:induction false} CutAt(a: string, sep: char, b: string)
    requires sep !in a
    ensures Before(a + [sep] + b, sep) == a && After(a + [sep] + b, sep) == b
  {
    if a == [] {
      assert a + [sep] + b == [sep] + b;
    } else {
      assert (a + [sep] + b)[1..] == a[1..] + [sep] + b;
      CutAt(a[1..], sep, b);
    }
  }

  /** Cutting at the first three bars recovers all four fields, whatever bars the
      message holds. */
  lemma ParseJoined(f: Fields)
    requires '|' !in f.email && (forall i :: 0 <= i < |f.phone| ==> IsDigit(f.phone[i]))
    ensures Parse(Joined(f)) == (f.email, f.phone, Decimal(f.propertyId), f.message)
  {
    DecimalRoundTrip(f.propertyId);
    var r2 := Decimal(f.propertyId) + "|" + f.message;
    var r1 := f.phone + "|" + r2;
    assert Joined(f) == f.email + "|" + r1;
    CutAt(f.email, '|', r1);
    CutAt(f.phone, '|', r2);
    CutAt(Decimal(f.propertyId), '|', f.message);
  }

  lemma NormalisedEmailHasNoBar(e: string)
    requires '|' !in e
    ensures '|' !in NormaliseEmail(e)
  {
    TrimStartSuffix(e);
    var _ := TrimEndPart(TrimStart(e));
    var t := Trim(e);
    assert forall i :: 0 <= i < |t| ==> t[i] in e;
    LowerAt(t);
  }

  /** Two enquiries are the same when the addresses agree up to case and white space around
      them, the phones have the same digits in order, the property is the same, and the
      messages have the same words up to case. */
  ghost predicate SameEnquiry(a: EnquiryInput, b: EnquiryInput) {
    && SameAddress(a.email, b.email)
    && SameDigits(if a.phone.Some? then a.phone.value else "", if b.phone.Some? then b.phone.value else "")
    && a.propertyId == b.propertyId
    && SameWords(a.message, b.message)
  }

  /** On validated bodies equal fingerprints mean the same enquiry, and conversely. */
  lemma FingerprintEquivalence(a: EnquiryInput, b: EnquiryInput)
    requires Validated(a) && Validated(b)
    ensures Fingerprint(a) == Fingerprint(b) <==> SameEnquiry(a, b)
  {
    hide SameAddress, SameDigits, SameWords;
    FieldsDecide(a, b);
    EmailEquivalence(a.email, b.email);
    PhoneEquivalence(PhoneText(a), PhoneText(b));
    MessageEquivalence(a.message, b.message);
  }

  /** The fingerprint is decided by the four normalised fields, and decides them. */
  lemma FieldsDecide(a: EnquiryInput, b: EnquiryInput)
    requires Validated(a) && Validated(b)
    ensures Fingerprint(a) == Fingerprint(b) <==>
              && NormaliseEmail(a.email) == NormaliseEmail(b.email)
              && Digits(PhoneText(a)) == Digits(PhoneText(b))
              && a.propertyId == b.propertyId
              && NormaliseMessage(a.message) == NormaliseMessage(b.message)
  {
    var fa, fb := Normalise(a), Normalise(b);
    NormalisedEmailHasNoBar(a.email);
    NormalisedEmailHasNoBar(b.email);
    DigitsOnly(PhoneText(a));
    DigitsOnly(PhoneText(b));
    ParseJoined(fa);
    ParseJoined(fb);
    DecimalRoundTrip(a.propertyId);
    DecimalRoundTrip(b.propertyId);
  }

  const BAR_A := EnquiryInput("", "x", Some("1"), 2, "3|4")
  const BAR_B := EnquiryInput("", "x|1", Some("2"), 3, "4")

  /** Without validation a bar in the address can move a field boundary. */
  lemma BarInEmailCollides()
    ensures Fingerprint(BAR_A) == Fingerprint(BAR_B) && !SameEnquiry(BAR_A, BAR_B)
  {
    hide Normalise, SameEnquiry;
    NormaliseBarExample();
    DifferentEmails();
    assert Decimal(2) == "2" && Decimal(3) == "3";
    assert Joined(Fields("x", "1", 2, "3|4")) == "x|1|2|3|4";
    assert Joined(Fields("x|1", "2", 3, "4")) == "x|1|2|3|4";
  }

  lemma DifferentEmails()
    ensures !SameEnquiry(BAR_A, BAR_B)
  {
    assert BAR_A.propertyId != BAR_B.propertyId;
  }

  lemma NormaliseBarExample()
    ensures Normalise(BAR_A) == Fields("x", "1", 2, "3|4")
    ensures Normalise(BAR_B) == Fields("x|1", "2", 3, "4")
  {
    OneDigit("1");
    OneDigit("2");
    LowerAt("x");
    LowerAt("x|1");
    LowerAt("3|4");
    LowerAt("4");
    OneWord("3|4");
    OneWord("4");
    TrimOfTrimmed("x");
    TrimOfTrimmed("x|1");
  }

  lemma OneDigit(s: string)
    requires |s| == 1 && IsDigit(s[0])
    ensures Digits(s) == s
  {}

  lemma OneWord(m: string)
    requires IsWordChars(m) && m != [] && Lower(m) == m
    ensures NormaliseMessage(m) == m
  {
    TrimOfTrimmed(m);
    CollapseWord(m, []);
    assert m + [] == m;
  }

  method FingerprintEnquiry(i: EnquiryInput) returns (d: Digest)
    ensures d == Fingerprint(i)
  {
    var email := TrimScan(i.email);
    email := LowerScan(email);
    var phone := DigitsScan(if i.phone.Some? then i.phone.value else "");
    var message := TrimScan(i.message);
    message := LowerScan(message);
    message := CollapseScan(message);
    d := Sha256(email + "|" + phone + "|" + Decimal(i.propertyId) + "|" + message);
  }
}
