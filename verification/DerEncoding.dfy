/**
 The DER encoding of Ecdsa-Sig-Value (RFC 3279 section 2.2.3, X.690 sections
 8.1.3 and 8.3), what the lax parser makes of it and of laxer encodings, and
 what a verdict on a signature depends on.
 */
module DerEncoding {
  import opened BigEndian
  import opened Options
  import opened DerGrammar
  import opened DerLax

  // ----- DER integers and lengths -----

  /** The bytes of `n` without leading zeros. */
  function MinimalBytes(n: nat): Bytes {
    if n == 0 then [] else MinimalBytes(n / 0x100) + [n % 0x100]
  }

  lemma {:induction false} MinimalBytesStand(n: nat)
    ensures Value(MinimalBytes(n)) == n
    ensures MinimalBytes(n) != [] ==> MinimalBytes(n)[0] != 0
  {
    if n != 0 {
      MinimalBytesStand(n / 0x100);
      ValueSnoc(MinimalBytes(n / 0x100), n % 0x100);
    }
  }

  /** X.690 section 8.3: a non-negative two's complement number in as few bytes as possible. */
  predicate IsDerInteger(content: Bytes, n: nat) {
    && content != [] && content[0] < 0x80 && Value(content) == n
    && (|content| > 1 && content[0] == 0 ==> content[1] >= 0x80)
  }

  function DerInteger(n: nat): Bytes {
    var bytes := MinimalBytes(n);
    if bytes == [] || bytes[0] >= 0x80 then [0] + bytes else bytes
  }

  /** Only the stripped bytes of a number have its value and no leading zero. */
  lemma {:induction false} StrippedIsMinimal(bs: Bytes)
    requires bs != [] ==> bs[0] != 0
    ensures bs == MinimalBytes(Value(bs))
  {
    if bs != [] {
      var front, last := bs[..|bs| - 1], bs[|bs| - 1];
      StrippedIsMinimal(front);
      assert bs == front + [last];
      ValueAtLeast(bs);
      PowGrows(0, |bs| - 1);
      assert Value(bs) / 0x100 == Value(front) && Value(bs) % 0x100 == last;
    }
  }

  /** `DerInteger` is the one DER encoding of a number. */
  lemma DerIntegerIsUnique(content: Bytes, n: nat)
    ensures IsDerInteger(content, n) <==> content == DerInteger(n)
  {
    MinimalBytesStand(n);
    ValueSkipsZero([0] + MinimalBytes(n));
    assert ([0] + MinimalBytes(n))[1..] == MinimalBytes(n);
    if IsDerInteger(content, n) {
      if content[0] == 0 {
        ValueSkipsZero(content);
        StrippedIsMinimal(content[1..]);
        assert content == [0] + content[1..];
      } else {
        StrippedIsMinimal(content);
      }
    }
  }

  /** The definite form with as few bytes as possible. */
  function DerLength(n: nat): Bytes
    requires n < TWO_TO_56
    ensures States(DerLength(n), n)
  {
    MinimalBytesStand(n);
    Powers();
    SizeOfStripped(MinimalBytes(n), 7);
    if n < 0x80 then [n]
    else
      var bytes := MinimalBytes(n);
      assert ([LONG_FORM + |bytes|] + bytes)[1..] == bytes;
      [LONG_FORM + |bytes|] + bytes
  }

  // ----- Signatures -----

  lemma DerIntegerFits(n: nat)
    requires n < ORDER
    ensures |DerInteger(n)| <= 33
  {
    MinimalBytesStand(n);
    Powers();
    SizeOfStripped(MinimalBytes(n), 32);
  }

  function SignatureParts(r: nat, s: nat): Parts
    requires r < ORDER && s < ORDER
    ensures WellFormed(SignatureParts(r, s))
  {
    DerIntegerFits(r);
    DerIntegerFits(s);
    var cr, cs := DerInteger(r), DerInteger(s);
    var body := Integer(DerLength(|cr|), cr) + Integer(DerLength(|cs|), cs);
    Parts(DerLength(|body|), DerLength(|cr|), cr, DerLength(|cs|), cs, [])
  }

  /** The DER encoding of a signature. */
  function DerSignature(r: nat, s: nat): Bytes
    requires r < ORDER && s < ORDER
  {
    Assembled(SignatureParts(r, s))
  }

  /** What the parser yields on any input. */
  function Outcome(input: Bytes): Option<Signature> {
    match ReadSignature(input)
    case None => None
    case Some((r, s)) => Some(Meaning(r, s))
  }

  /** Byte by byte: short lengths throughout, since both integers are short. */
  lemma DerSignatureBytes(r: nat, s: nat)
    requires r < ORDER && s < ORDER
    ensures var cr, cs := DerInteger(r), DerInteger(s);
            && |cr| <= 33 && |cs| <= 33
            && DerSignature(r, s) == [0x30, |cr| + |cs| + 4, 0x02, |cr|] + cr + [0x02, |cs|] + cs
  {
    DerIntegerFits(r);
    DerIntegerFits(s);
  }

  /** Parsing the DER encoding of a signature gives back exactly the signature. */
  lemma DerRoundTrip(r: nat, s: nat)
    requires r < ORDER && s < ORDER
    ensures Outcome(DerSignature(r, s)) == Some(Signature(r, s))
  {
    var p := SignatureParts(r, s);
    WellFormedIsRead(p);
    DerIntegerIsUnique(p.r, r);
    DerIntegerIsUnique(p.s, s);
  }

  /** Leading zeros of the integers, with any fields that state their lengths, do not change the result. */
  lemma PaddingIsIgnored(p: Parts, p': Parts, j: nat, k: nat)
    requires WellFormed(p) && WellFormed(p')
    requires p'.r == Zeros(j) + p.r && p'.s == Zeros(k) + p.s
    ensures Outcome(Assembled(p')) == Outcome(Assembled(p)) == Some(Meaning(p.r, p.s))
  {
    WellFormedIsRead(p);
    WellFormedIsRead(p');
    ValueOfPadded(j, p.r);
    ValueOfPadded(k, p.s);
  }

  /** Leading zeros of a long-form length, up to 127 bytes in all, state the same length. */
  lemma LengthsMayBePadded(f: Bytes, n: nat, k: nat)
    requires States(f, n) && f[0] >= LONG_FORM && |f| - 1 + k <= 0x7F
    ensures States([f[0] + k] + Zeros(k) + f[1..], n)
  {
    var g := [f[0] + k] + Zeros(k) + f[1..];
    assert g[1..] == Zeros(k) + f[1..];
    ValueOfPadded(k, f[1..]);
  }

  /** A lax encoding: the DER integers with leading zeros, whatever fields state their lengths. */
  lemma LaxRoundTrip(p: Parts, r: nat, s: nat, j: nat, k: nat)
    requires WellFormed(p) && r < ORDER && s < ORDER
    requires p.r == Zeros(j) + DerInteger(r) && p.s == Zeros(k) + DerInteger(s)
    ensures Outcome(Assembled(p)) == Some(Signature(r, s))
  {
    PaddingIsIgnored(SignatureParts(r, s), p, j, k);
    DerRoundTrip(r, s);
  }

  // ----- Verdicts -----

  /** secp256k1_ecdsa_signature_normalize: the lower of `s` and `ORDER - s`. */
  function Normalized(sig: Signature): Signature {
    if sig.s > ORDER / 2 && sig.s < ORDER then sig.(s := ORDER - sig.s) else sig
  }

  /** What VerifySignature answers, for a key that parses or not and the check of normalized signatures against it. */
  function Verdict(keyParses: bool, input: Bytes, check: Signature -> bool): bool {
    keyParses && Outcome(input).Some? && check(Normalized(Outcome(input).value))
  }

  lemma VerdictOnDer(keyParses: bool, input: Bytes, check: Signature -> bool)
    ensures forall r: nat, s: nat :: keyParses && r < ORDER && s < ORDER && input == DerSignature(r, s) ==>
              Verdict(keyParses, input, check) == check(Signature(r, if s > ORDER / 2 then ORDER - s else s))
  {
    hide Verdict, DerSignature;
    forall r: nat, s: nat | keyParses && r < ORDER && s < ORDER && input == DerSignature(r, s)
      ensures Verdict(keyParses, input, check) == check(Signature(r, if s > ORDER / 2 then ORDER - s else s))
    {
      VerdictOf(keyParses, r, s, check);
    }
  }

  lemma VerdictOf(keyParses: bool, r: nat, s: nat, check: Signature -> bool)
    requires r < ORDER && s < ORDER
    ensures Verdict(keyParses, DerSignature(r, s), check)
         == (keyParses && check(Signature(r, if s > ORDER / 2 then ORDER - s else s)))
  {
    hide Outcome, DerSignature;
    DerRoundTrip(r, s);
  }

  method VerifySignature(keyParses: bool, input: Bytes, check: Signature -> bool) returns (valid: bool)
    requires Fits(input)
    ensures valid == Verdict(keyParses, input, check)
    ensures !keyParses ==> !valid
    ensures ReadSignature(input).None? ==> !valid
    ensures keyParses && ReadSignature(input).Some? ==>
              var (r, s) := ReadSignature(input).value;
              valid == check(if Value(r) >= ORDER || Value(s) >= ORDER then Signature(0, 0)
                             else Signature(Value(r), if Value(s) > ORDER / 2 then ORDER - Value(s) else Value(s)))
    ensures forall r: nat, s: nat :: keyParses && r < ORDER && s < ORDER && input == DerSignature(r, s) ==>
              valid == check(Signature(r, if s > ORDER / 2 then ORDER - s else s))
  {
    hide DerSignature;
    VerdictOnDer(keyParses, input, check);
    if !keyParses {
      return false;
    }
    var ok, sig := ParseDerLax(input);
    if !ok {
      return false;
    }
    valid := check(Normalized(sig));
  }

  /** The parser makes (0, 0) of it. */
  predicate ReadsAsNothing(r: nat, s: nat) {
    r >= ORDER || s >= ORDER || (r == 0 && s == 0)
  }

  /** The same numbers, or `s` and its negation, or two that the parser reads as nothing. */
  predicate SameSignature(r: nat, s: nat, r': nat, s': nat) {
    || (r == r' && s == s')
    || (r == r' < ORDER && 0 < s < ORDER && s' == ORDER - s)
    || (ReadsAsNothing(r, s) && ReadsAsNothing(r', s'))
  }

  lemma NormalizedAlike(p: Parts, p': Parts)
    ensures Normalized(Meaning(p.r, p.s)) == Normalized(Meaning(p'.r, p'.s))
       <==> SameSignature(Value(p.r), Value(p.s), Value(p'.r), Value(p'.s))
  {
  }

  /** Every key gives two accepted encodings the same verdict exactly when they are of the same signature. */
  lemma VerdictsIgnoreEncoding(p: Parts, p': Parts)
    requires WellFormed(p) && WellFormed(p')
    ensures (forall keyParses, check ::
               Verdict(keyParses, Assembled(p), check) == Verdict(keyParses, Assembled(p'), check))
       <==> SameSignature(Value(p.r), Value(p.s), Value(p'.r), Value(p'.s))
  {
    WellFormedIsRead(p);
    WellFormedIsRead(p');
    NormalizedAlike(p, p');
    hide ReadSignature, Assembled, Meaning, Normalized, SameSignature, WellFormed;
    var sig := Normalized(Meaning(p.r, p.s));
    if Normalized(Meaning(p'.r, p'.s)) != sig {
      assert Verdict(true, Assembled(p), x => x == sig) != Verdict(true, Assembled(p'), x => x == sig);
    }
  }
}
