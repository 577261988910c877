/**
 The lax DER signatures: which byte strings are accepted and what they mean,
 stated once as a grammar and once as a reader from left to right.
 */
module DerGrammar {
  import opened BigEndian
  import opened Options

  type Bytes = seq<Byte>

  const SEQUENCE_TAG: Byte := 0x30
  const INTEGER_TAG: Byte := 0x02
  const LONG_FORM: Byte := 0x80

  /** The order of the group of secp256k1. */
  const ORDER := 0xFFFF_FFFF_FFFF_FFFF_FFFF_FFFF_FFFF_FFFE_BAAE_DCE6_AF48_A03B_BFD2_5E8C_D036_4141

  datatype Signature = Signature(r: nat, s: nat)

  const INVALID := Signature(0, 0)

  /** secp256k1_ecdsa_signature_parse_compact, by its contract. */
  function ParseCompact(bytes: Bytes): Option<Signature>
    requires |bytes| == 64
  {
    var r, s := Value(bytes[..32]), Value(bytes[32..]);
    if r < ORDER && s < ORDER then Some(Signature(r, s)) else None
  }

  // ----- The grammar -----

  /** A length field, X.690 section 8.1.3: one byte below 0x80, or 0x80 plus the number of bytes that follow. */
  predicate IsLengthField(f: Bytes) {
    && f != []
    && if f[0] < LONG_FORM then |f| == 1 else |f| == 1 + (f[0] - LONG_FORM)
  }

  /** The length that a field states. */
  function Length(f: Bytes): nat
    requires IsLengthField(f)
  {
    if f[0] < LONG_FORM then f[0] else Value(f[1..])
  }

  predicate States(f: Bytes, n: nat) {
    IsLengthField(f) && Length(f) == n < TWO_TO_56
  }

  /** The parts of an accepted signature. */
  datatype Parts = Parts(skipped: Bytes, rField: Bytes, r: Bytes, sField: Bytes, s: Bytes, trailing: Bytes)

  /** The length of the sequence is only skipped; bytes after the second integer are ignored. */
  predicate WellFormed(p: Parts) {
    IsLengthField(p.skipped) && States(p.rField, |p.r|) && States(p.sField, |p.s|)
  }

  function Integer(field: Bytes, content: Bytes): Bytes {
    [INTEGER_TAG] + field + content
  }

  function Assembled(p: Parts): Bytes {
    [SEQUENCE_TAG] + p.skipped + Integer(p.rField, p.r) + Integer(p.sField, p.s) + p.trailing
  }

  /** What two integers mean: out of range, they make a signature that is never valid. */
  function Meaning(r: Bytes, s: Bytes): Signature {
    if Value(r) < ORDER && Value(s) < ORDER then Signature(Value(r), Value(s)) else INVALID
  }

  // ----- The reader -----

  /** The end of the length field at `pos`. */
  function FieldEnd(input: Bytes, pos: nat): Option<nat> {
    if pos >= |input| then None
    else if input[pos] < LONG_FORM then Some(pos + 1)
    else
      var end := pos + 1 + (input[pos] - LONG_FORM);
      if end > |input| then None else Some(end)
  }

  /** A length field at `pos`: the length it states, and where it ends. */
  function ReadLength(input: Bytes, pos: nat): Option<(nat, nat)> {
    match FieldEnd(input, pos)
    case None => None
    case Some(end) =>
      var n := if input[pos] < LONG_FORM then input[pos] else Value(input[pos + 1..end]);
      if n < TWO_TO_56 then Some((n, end)) else None
  }

  /** An integer at `pos`: its content, and where it ends. */
  function ReadInteger(input: Bytes, pos: nat): Option<(Bytes, nat)> {
    if pos >= |input| || input[pos] != INTEGER_TAG then None
    else
      match ReadLength(input, pos + 1)
      case None => None
      case Some((n, at)) =>
        if at + n > |input| then None else Some((input[at..at + n], at + n))
  }

  function ReadSignature(input: Bytes): Option<(Bytes, Bytes)> {
    if input == [] || input[0] != SEQUENCE_TAG then None
    else
      match FieldEnd(input, 1)
      case None => None
      case Some(at) =>
        match ReadInteger(input, at)
        case None => None
        case Some((r, afterR)) =>
          match ReadInteger(input, afterR)
          case None => None
          case Some((s, _)) => Some((r, s))
  }

  // ----- They agree -----

  lemma FieldEndOf(before: Bytes, f: Bytes, after: Bytes)
    requires IsLengthField(f)
    ensures FieldEnd(before + f + after, |before|) == Some(|before| + |f|)
  {
    var input := before + f + after;
    assert input[|before|] == f[0];
  }

  lemma ReadLengthOf(before: Bytes, f: Bytes, n: nat, after: Bytes)
    requires States(f, n)
    ensures ReadLength(before + f + after, |before|) == Some((n, |before| + |f|))
  {
    var input := before + f + after;
    FieldEndOf(before, f, after);
    assert input[|before|] == f[0];
    assert input[|before| + 1..|before| + |f|] == f[1..];
  }

  lemma ReadIntegerOf(before: Bytes, f: Bytes, content: Bytes, after: Bytes)
    requires States(f, |content|)
    ensures ReadInteger(before + Integer(f, content) + after, |before|)
         == Some((content, |before| + |Integer(f, content)|))
  {
    var input := before + Integer(f, content) + after;
    assert input[|before|] == INTEGER_TAG;
    assert input == (before + [INTEGER_TAG]) + f + (content + after);
    ReadLengthOf(before + [INTEGER_TAG], f, |content|, content + after);
    var at := |before| + 1 + |f|;
    assert input[at..at + |content|] == content;
  }

  lemma Regroup(a: Bytes, b: Bytes, c: Bytes, d: Bytes, e: Bytes)
    ensures a + b + c + d + e == a + b + (c + d + e)
    ensures a + b + c + d + e == (a + b) + c + (d + e)
    ensures a + b + c + d + e == (a + b + c) + d + e
  {
  }

  lemma FirstIntegerIsRead(p: Parts)
    requires WellFormed(p)
    ensures ReadInteger(Assembled(p), 1 + |p.skipped|) == Some((p.r, 1 + |p.skipped| + |Integer(p.rField, p.r)|))
  {
    var tag := [SEQUENCE_TAG];
    var intR, intS := Integer(p.rField, p.r), Integer(p.sField, p.s);
    Regroup(tag, p.skipped, intR, intS, p.trailing);
    ReadIntegerOf(tag + p.skipped, p.rField, p.r, intS + p.trailing);
  }

  lemma SecondIntegerIsRead(p: Parts)
    requires WellFormed(p)
    ensures var at := 1 + |p.skipped| + |Integer(p.rField, p.r)|;
            ReadInteger(Assembled(p), at) == Some((p.s, at + |Integer(p.sField, p.s)|))
  {
    var tag := [SEQUENCE_TAG];
    var intR, intS := Integer(p.rField, p.r), Integer(p.sField, p.s);
    Regroup(tag, p.skipped, intR, intS, p.trailing);
    ReadIntegerOf(tag + p.skipped + intR, p.sField, p.s, p.trailing);
  }

  lemma SequenceLengthIsSkipped(p: Parts)
    requires WellFormed(p)
    ensures Assembled(p)[0] == SEQUENCE_TAG && FieldEnd(Assembled(p), 1) == Some(1 + |p.skipped|)
  {
    var tag := [SEQUENCE_TAG];
    var intR, intS := Integer(p.rField, p.r), Integer(p.sField, p.s);
    Regroup(tag, p.skipped, intR, intS, p.trailing);
    FieldEndOf(tag, p.skipped, intR + intS + p.trailing);
  }

  lemma ReadInOrder(input: Bytes, at: nat, r: Bytes, afterR: nat, s: Bytes, afterS: nat)
    requires input != [] && input[0] == SEQUENCE_TAG && FieldEnd(input, 1) == Some(at)
    requires ReadInteger(input, at) == Some((r, afterR)) && ReadInteger(input, afterR) == Some((s, afterS))
    ensures ReadSignature(input) == Some((r, s))
  {
  }

  /** Every well-formed string is read as the integers it was made of. */
  lemma WellFormedIsRead(p: Parts)
    requires WellFormed(p)
    ensures ReadSignature(Assembled(p)) == Some((p.r, p.s))
  {
    hide FieldEnd, ReadInteger, ReadSignature;
    SequenceLengthIsSkipped(p);
    FirstIntegerIsRead(p);
    SecondIntegerIsRead(p);
    var at := 1 + |p.skipped|;
    var afterR := at + |Integer(p.rField, p.r)|;
    ReadInOrder(Assembled(p), at, p.r, afterR, p.s, afterR + |Integer(p.sField, p.s)|);
  }

  /** The field between `pos` and where it ends. */
  lemma FieldAt(input: Bytes, pos: nat)
    requires FieldEnd(input, pos).Some?
    ensures pos < FieldEnd(input, pos).value <= |input|
    ensures IsLengthField(input[pos..FieldEnd(input, pos).value])
    ensures ReadLength(input, pos).Some? ==>
              States(input[pos..FieldEnd(input, pos).value], ReadLength(input, pos).value.0)
  {
    var end := FieldEnd(input, pos).value;
    var f := input[pos..end];
    assert f[0] == input[pos];
    assert f[1..] == input[pos + 1..end];
  }

  /** What is read as an integer is one. */
  lemma IntegerAt(input: Bytes, pos: nat) returns (field: Bytes)
    requires ReadInteger(input, pos).Some?
    ensures pos <= ReadInteger(input, pos).value.1 <= |input|
    ensures States(field, |ReadInteger(input, pos).value.0|)
    ensures input[pos..ReadInteger(input, pos).value.1] == Integer(field, ReadInteger(input, pos).value.0)
  {
    var (n, at) := ReadLength(input, pos + 1).value;
    FieldAt(input, pos + 1);
    field := input[pos + 1..at];
    assert input[pos..at + n] == [input[pos]] + input[pos + 1..at] + input[at..at + n];
  }

  lemma CutInFive(input: Bytes, i: nat, j: nat, k: nat)
    requires 1 <= i <= j <= k <= |input|
    ensures input == [input[0]] + input[1..i] + input[i..j] + input[j..k] + input[k..]
  {
  }

  /** What is read has parts that it is assembled from. */
  lemma ReadIsWellFormed(input: Bytes) returns (p: Parts)
    requires ReadSignature(input).Some?
    ensures WellFormed(p) && Assembled(p) == input
    ensures (p.r, p.s) == ReadSignature(input).value
  {
    var at := FieldEnd(input, 1).value;
    FieldAt(input, 1);
    var r, afterR := ReadInteger(input, at).value.0, ReadInteger(input, at).value.1;
    var s, afterS := ReadInteger(input, afterR).value.0, ReadInteger(input, afterR).value.1;
    var rField := IntegerAt(input, at);
    var sField := IntegerAt(input, afterR);
    CutInFive(input, at, afterR, afterS);
    p := Parts(input[1..at], rField, r, sField, s, input[afterS..]);
  }

  /** A string is accepted exactly when it has well-formed parts, and it has only one reading. */
  lemma AcceptedIsWellFormed(input: Bytes, r: Bytes, s: Bytes)
    ensures ReadSignature(input) == Some((r, s)) <==>
            exists p :: WellFormed(p) && Assembled(p) == input && p.r == r && p.s == s
  {
    if ReadSignature(input) == Some((r, s)) {
      var p := ReadIsWellFormed(input);
      assert WellFormed(p) && Assembled(p) == input && p.r == r && p.s == s;
    }
    if p :| WellFormed(p) && Assembled(p) == input && p.r == r && p.s == s {
      WellFormedIsRead(p);
    }
  }

  /** The accepted strings, byte by byte. */
  lemma AcceptedBytes(input: Bytes, r: Bytes, s: Bytes)
    ensures ReadSignature(input) == Some((r, s)) <==>
            exists skipped, rField, sField, trailing ::
              && WellFormed(Parts(skipped, rField, r, sField, s, trailing))
              && input == [0x30] + skipped + ([0x02] + rField + r) + ([0x02] + sField + s) + trailing
  {
    AcceptedIsWellFormed(input, r, s);
    if p :| WellFormed(p) && Assembled(p) == input && p.r == r && p.s == s {
      assert WellFormed(Parts(p.skipped, p.rField, r, p.sField, s, p.trailing));
      assert input == [0x30] + p.skipped + ([0x02] + p.rField + r) + ([0x02] + p.sField + s) + p.trailing;
    }
    if skipped, rField, sField, trailing :|
      && WellFormed(Parts(skipped, rField, r, sField, s, trailing))
      && input == [0x30] + skipped + ([0x02] + rField + r) + ([0x02] + sField + s) + trailing
    {
      var p := Parts(skipped, rField, r, sField, s, trailing);
      assert Assembled(p) == input;
    }
  }

  lemma OtherFirstBytesAreRefused(input: Bytes)
    requires input == [] || input[0] != 0x30
    ensures ReadSignature(input).None?
  {
  }

  /** Whatever the length of the sequence says, the next byte has to be the tag of an integer. */
  lemma OtherFirstTagsAreRefused(skipped: Bytes, rest: Bytes)
    requires IsLengthField(skipped) && (rest == [] || rest[0] != 0x02)
    ensures ReadSignature([0x30] + skipped + rest).None?
  {
    var input := [0x30] + skipped + rest;
    FieldEndOf([0x30], skipped, rest);
    assert rest != [] ==> input[1 + |skipped|] == rest[0];
  }

  /** And so has the byte after the first integer. */
  lemma OtherSecondTagsAreRefused(skipped: Bytes, rField: Bytes, r: Bytes, rest: Bytes)
    requires IsLengthField(skipped) && States(rField, |r|) && (rest == [] || rest[0] != 0x02)
    ensures ReadSignature([0x30] + skipped + ([0x02] + rField + r) + rest).None?
  {
    var integer := [0x02] + rField + r;
    var input := [0x30] + skipped + integer + rest;
    assert input == [0x30] + skipped + (integer + rest);
    FieldEndOf([0x30], skipped, integer + rest);
    ReadIntegerOf([0x30] + skipped, rField, r, rest);
    assert integer == Integer(rField, r);
    hide FieldEnd, ReadLength;
    assert rest != [] ==> input[1 + |skipped| + |integer|] == rest[0];
  }

  /** The signature (1, 1). */
  lemma ShortExample()
    ensures ReadSignature([0x30, 0x06, 0x02, 0x01, 0x01, 0x02, 0x01, 0x01]) == Some(([1], [1]))
  {
    var p := Parts([0x06], [0x01], [1], [0x01], [1], []);
    assert Assembled(p) == [0x30, 0x06, 0x02, 0x01, 0x01, 0x02, 0x01, 0x01];
    hide ReadSignature, Assembled;
    WellFormedIsRead(p);
  }

  /** A sequence length that is wrong, long lengths, one with a leading zero, and a trailing byte. */
  lemma LongExample()
    ensures ReadSignature([0x30, 0x81, 0xFF, 0x02, 0x81, 0x02, 0x01, 0x00, 0x02, 0x82, 0x00, 0x01, 0x07, 0x55])
         == Some(([1, 0], [7]))
  {
    var p := Parts([0x81, 0xFF], [0x81, 0x02], [1, 0], [0x82, 0x00, 0x01], [7], [0x55]);
    ValueExamples();
    assert p.rField[1..] == [2] && p.sField[1..] == [0, 1];
    assert Assembled(p) == [0x30, 0x81, 0xFF, 0x02, 0x81, 0x02, 0x01, 0x00, 0x02, 0x82, 0x00, 0x01, 0x07, 0x55];
    hide ReadSignature, Assembled;
    WellFormedIsRead(p);
  }

  /** An integer without content, whose length takes no bytes. */
  lemma EmptyExample()
    ensures ReadSignature([0x30, 0x80, 0x02, 0x80, 0x02, 0x01, 0x09]) == Some(([], [9]))
  {
    var p := Parts([0x80], [0x80], [], [0x01], [9], []);
    assert p.rField[1..] == [];
    assert Assembled(p) == [0x30, 0x80, 0x02, 0x80, 0x02, 0x01, 0x09];
    hide ReadSignature, Assembled;
    WellFormedIsRead(p);
  }

  /** Big-endian. */
  lemma ValueExamples()
    ensures Value([]) == 0 && Value([2]) == 2 && Value([0, 1]) == 1 && Value([1, 0]) == 0x100
    ensures Value([1, 2, 3]) == 0x1_0203
  {
    assert [2][..0] == [] && [0][..0] == [] && [1][..0] == [];
    assert [0, 1][..1] == [0] && [1, 0][..1] == [1] && [1, 2][..1] == [1] && [1, 2, 3][..2] == [1, 2];
    assert Value([0]) == 0 && Value([1]) == 1 && Value([1, 2]) == 0x102;
  }

  lemma GroupOrder()
    ensures ORDER == TWO_TO_256 - 0x1_4551_2319_50B7_5FC4_402D_A173_2FC9_BEBF
  {
  }
}
