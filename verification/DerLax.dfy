/**
 The lax DER signature parser, on 64-bit sizes: every position, length and sum
 is a `Size`, so that none of them wraps, and every read is inside the input.
 */
module DerLax {
  import opened BigEndian
  import opened Options
  import opened DerGrammar

  newtype Size = x: int | 0 <= x < TWO_TO_64

  /** The input leaves room for one length byte's worth of positions beyond its end. */
  predicate Fits(input: Bytes) {
    |input| + 0x7F < TWO_TO_64
  }

  lemma Stripped(input: Bytes, start: int, pos: int, end: int)
    requires 0 <= start <= pos < end <= |input|
    requires Value(input[start..end]) == Value(input[pos..end]) && input[pos] == 0
    ensures Value(input[start..end]) == Value(input[pos + 1..end])
  {
    ValueSkipsZero(input[pos..end]);
    assert input[pos..end][1..] == input[pos + 1..end];
  }

  lemma OneMoreByte(input: Bytes, start: int, pos: int)
    requires 0 <= start <= pos < |input|
    ensures Value(input[start..pos + 1]) == Value(input[start..pos]) * 0x100 + input[pos]
  {
    assert input[start..pos + 1] == input[start..pos] + [input[pos]];
    ValueSnoc(input[start..pos], input[pos]);
  }

  lemma ShortNumber(bs: Bytes)
    requires |bs| <= 7
    ensures Value(bs) < TWO_TO_56
  {
    Powers();
    ValueBelow(bs);
    PowGrows(|bs|, 7);
  }

  lemma LongNumber(bs: Bytes)
    requires |bs| >= 8 && bs[0] != 0
    ensures Value(bs) >= TWO_TO_56
  {
    Powers();
    SizeOfStripped(bs, 7);
  }

  /** The bytes of a long-form length: leading zeros go, then at most seven may be left. */
  method ReadNumber(input: Bytes, pos0: Size, lenbyte0: Size) returns (ok: bool, len: Size, pos: Size)
    requires Fits(input) && pos0 as int + lenbyte0 as int <= |input|
    ensures ok <==> Value(input[pos0..pos0 as int + lenbyte0 as int]) < TWO_TO_56
    ensures ok ==> len as int == Value(input[pos0..pos0 as int + lenbyte0 as int]) < TWO_TO_56
    ensures ok ==> pos == pos0 + lenbyte0
  {
    var lenbyte := lenbyte0;
    pos, len := pos0, 0;
    ghost var end := pos0 as int + lenbyte0 as int;
    while lenbyte > 0 && input[pos] == 0
      invariant pos0 <= pos && pos as int + lenbyte as int == end
      invariant Value(input[pos0..end]) == Value(input[pos..end])
      decreases lenbyte
    {
      Stripped(input, pos0 as int, pos as int, end);
      pos := pos + 1;
      lenbyte := lenbyte - 1;
    }
    ok := lenbyte < 8;
    if !ok {
      LongNumber(input[pos..end]);
      return;
    }
    ghost var start := pos;
    assert input[start..pos] == [];
    while lenbyte > 0
      invariant start <= pos && pos as int + lenbyte as int == end && pos - start <= 7 && end - start as int <= 7
      invariant len as int == Value(input[start..pos])
      decreases lenbyte
    {
      ShortNumber(input[start..pos + 1]);
      OneMoreByte(input, start as int, pos as int);
      len := len * 0x100 + input[pos] as Size;
      pos := pos + 1;
      lenbyte := lenbyte - 1;
    }
    ShortNumber(input[start..end]);
  }

  /** An integer tag and length, once for R and once for S: where the content starts, and how long it is. */
  method ReadHeader(input: Bytes, pos0: Size) returns (ok: bool, len: Size, pos: Size)
    requires Fits(input) && pos0 as int <= |input|
    ensures ok <==> ReadInteger(input, pos0 as int).Some?
    ensures ok ==> pos as int + len as int <= |input|
    ensures ok ==>
              ReadInteger(input, pos0 as int) == Some((input[pos..pos as int + len as int], pos as int + len as int))
  {
    pos, len := pos0, 0;
    if pos as int == |input| || input[pos] != INTEGER_TAG {
      return false, len, pos;
    }
    pos := pos + 1;
    if pos as int == |input| {
      return false, len, pos;
    }
    var lenbyte := input[pos] as Size;
    pos := pos + 1;
    if lenbyte >= LONG_FORM as Size {
      lenbyte := lenbyte - LONG_FORM as Size;
      if pos + lenbyte > |input| as Size {
        return false, len, pos;
      }
      ok, len, pos := ReadNumber(input, pos, lenbyte);
      if !ok {
        return;
      }
    } else {
      len := lenbyte;
    }
    ok := len <= |input| as Size - pos;
  }

  method Memcpy(target: array<Byte>, to: nat, source: Bytes)
    requires to + |source| <= target.Length
    modifies target
    ensures target[..] == old(target[..to]) + source + old(target[to + |source|..])
  {
    for i := 0 to |source|
      invariant forall k :: 0 <= k < target.Length ==>
                  target[k] == if to <= k < to + i then source[k - to] else old(target[k])
    {
      target[to + i] := source[i];
    }
  }

  /** What a copy that ends at `end` leaves of a buffer whose half before `end` was zero. */
  lemma CopiedHalf(was: Bytes, now: Bytes, end: nat, content: Bytes)
    requires |content| <= 32 <= end <= |was| && now == was[..end - |content|] + content + was[end..]
    requires forall k :: end - 32 <= k < end ==> was[k] == 0
    ensures now[..end - 32] == was[..end - 32] && now[end..] == was[end..]
    ensures now[end - 32..end] == Zeros(32 - |content|) + content
  {
  }

  /**
   Copies an integer, without its leading zeros, right-aligned into the half of
   `tmpsig` that ends at `end`; an integer that does not fit is left out.
   */
  method CopyValue(input: Bytes, pos0: Size, len0: Size, tmpsig: array<Byte>, end: nat) returns (overflow: bool)
    requires pos0 as int + len0 as int <= |input| < TWO_TO_64
    requires 32 <= end <= tmpsig.Length
    requires forall k :: end - 32 <= k < end ==> tmpsig[k] == 0
    modifies tmpsig
    ensures overflow <==> Value(input[pos0..pos0 as int + len0 as int]) >= TWO_TO_256
    ensures !overflow ==> Value(tmpsig[end - 32..end]) == Value(input[pos0..pos0 as int + len0 as int])
    ensures tmpsig[..end - 32] == old(tmpsig[..end - 32]) && tmpsig[end..] == old(tmpsig[end..])
  {
    var pos, len := pos0, len0;
    ghost var last := pos0 as int + len0 as int;
    while len > 0 && input[pos] == 0
      invariant pos0 <= pos && pos as int + len as int == last
      invariant tmpsig[..] == old(tmpsig[..])
      invariant Value(input[pos0..last]) == Value(input[pos..last])
      decreases len
    {
      Stripped(input, pos0 as int, pos as int, last);
      len := len - 1;
      pos := pos + 1;
    }
    overflow := len > 32;
    hide Value, Pow256;
    Powers();
    SizeOfStripped(input[pos..last], 32);
    if !overflow {
      ghost var content := input[pos..last];
      assert |content| == len as int && input[pos..pos + len] == content;
      Memcpy(tmpsig, end - len as int, input[pos..pos + len]);
      CopiedHalf(old(tmpsig[..]), tmpsig[..], end, content);
      ValueOfPadded(32 - |content|, content);
    }
  }

  /**
   The parser. It accepts the strings that the grammar describes, and yields
   the two integers when both are in range.
   */
  method ParseDerLax(input: Bytes) returns (ok: bool, sig: Signature)
    requires Fits(input)
    ensures ok <==> ReadSignature(input).Some?
    ensures sig == match ReadSignature(input) case None => INVALID case Some((r, s)) => Meaning(r, s)
    ensures input == [] || input[0] != 0x30 ==> !ok
    ensures !ok ==> sig == Signature(0, 0)
  {
    sig := INVALID;
    var pos: Size := 0;
    if pos as int == |input| || input[pos] != SEQUENCE_TAG {
      return false, sig;
    }
    pos := pos + 1;
    if pos as int == |input| {
      return false, sig;
    }
    var lenbyte := input[pos] as Size;
    pos := pos + 1;
    if lenbyte >= LONG_FORM as Size {
      lenbyte := lenbyte - LONG_FORM as Size;
      if pos + lenbyte > |input| as Size {
        return false, sig;
      }
      pos := pos + lenbyte;
    }
    assert FieldEnd(input, 1) == Some(pos as int);
    hide FieldEnd, ReadInteger, Meaning;
    var rlen, rpos, slen, spos;
    ok, rlen, rpos := ReadHeader(input, pos);
    if !ok {
      return;
    }
    ok, slen, spos := ReadHeader(input, rpos + rlen);
    if !ok {
      return;
    }
    sig := Fill(input, rpos, rlen, spos, slen);
  }

  /** The end of the parser: both integers go through the 64-byte buffer. */
  method Fill(input: Bytes, rpos: Size, rlen: Size, spos: Size, slen: Size) returns (sig: Signature)
    requires Fits(input)
    requires rpos as int + rlen as int <= |input| && spos as int + slen as int <= |input|
    ensures sig == Meaning(input[rpos..rpos as int + rlen as int], input[spos..spos as int + slen as int])
  {
    var tmpsig := new Byte[64](i => 0);
    var overflowR := CopyValue(input, rpos, rlen, tmpsig, 32);
    assert forall k :: 32 <= k < 64 ==> tmpsig[k] == tmpsig[32..][k - 32];
    ghost var r := tmpsig[..32];
    var overflowS := CopyValue(input, spos, slen, tmpsig, 64);
    assert tmpsig[0..32] == tmpsig[..32] == r;
    sig := INVALID;
    if !overflowR && !overflowS {
      var parsed := ParseCompact(tmpsig[..]);
      assert tmpsig[..][..32] == tmpsig[..32] && tmpsig[..][32..] == tmpsig[32..64];
      if parsed.Some? {
        sig := parsed.value;
      }
    }
  }
}
