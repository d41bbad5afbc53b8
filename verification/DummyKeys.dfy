/**
 The fallback master lock keys, used when no plugin can derive keys (daemon/SecretsImpl/secrets.cpp:50-72).
 */
module DummyKeys {
  import opened Bytes

  /** "The quick brown fox jumps over the lazy dog" */
  function TestText(): (t: ByteArray)
    ensures |t| == 43
  {
    [
     0x54, 0x68, 0x65, 0x20, 0x71, 0x75, 0x69, 0x63, 0x6b, 0x20, 0x62, 0x72, 0x6f, 0x77, 0x6e, 0x20,
     0x66, 0x6f, 0x78, 0x20, 0x6a, 0x75, 0x6d, 0x70, 0x73, 0x20, 0x6f, 0x76, 0x65, 0x72, 0x20, 0x74,
     0x68, 0x65, 0x20, 0x6c, 0x61, 0x7a, 0x79, 0x20, 0x64, 0x6f, 0x67]
  }

  const FILL: Byte := 0x66 // 'f'

  function HexDigit(n: Byte): Byte {
    if n < 10 then 0x30 + n else 0x57 + n
  }

  /** Position `i` of the hex form: the high half of a byte, then the low half. */
  function HexAt(code: ByteArray, i: nat): Byte
    requires i / 2 < |code|
  {
    HexDigit(if i % 2 == 0 then code[i / 2] >> 4 else code[i / 2] & 0x0f)
  }

  /** QByteArray::toHex */
  function ToHex(code: ByteArray): (h: ByteArray)
    ensures |h| == 2 * |code| && forall i :: 0 <= i < |h| ==> h[i] == HexAt(code, i)
  {
    seq(2 * |code|, i requires 0 <= i < 2 * |code| => HexAt(code, i))
  }

  /** `h` continued with zero bytes. */
  function Padded(h: ByteArray, i: nat): Byte {
    if i < |h| then h[i] else 0
  }

  function Filled(size: nat): (b: ByteArray)
    ensures |b| == size && forall i :: 0 <= i < size ==> b[i] == FILL
  {
    seq(size, _ => FILL)
  }

  /** `buffer` with `mask` XORed in, as far as both reach. */
  function Masked(buffer: ByteArray, mask: ByteArray): (r: ByteArray)
    ensures |r| == |buffer| && forall i :: 0 <= i < |r| ==> r[i] == buffer[i] ^ Padded(mask, i)
  {
    seq(|buffer|, i requires 0 <= i < |buffer| => buffer[i] ^ Padded(mask, i))
  }

  /** The XOR loop, run in place. */
  method MaskInPlace(buffer: array<Byte>, mask: ByteArray)
    modifies buffer
    ensures buffer[..] == Masked(old(buffer[..]), mask)
  {
    var i := 0;
    while i < |mask| && i < buffer.Length
      invariant 0 <= i <= |mask| && i <= buffer.Length
      invariant forall j :: 0 <= j < i ==> buffer[j] == old(buffer[j]) ^ mask[j]
      invariant forall j :: i <= j < buffer.Length ==> buffer[j] == old(buffer[j])
    {
      buffer[i] := buffer[i] ^ mask[i];
      i := i + 1;
    }
  }

  function BookkeepingKey(code: ByteArray): ByteArray {
    Masked(Filled(64), ToHex(code))
  }

  function DeviceLockKey(code: ByteArray): ByteArray {
    Masked(Filled(32), code)
  }

  /** The check text a lock code gives: the test text under the key made from the code's hex form. */
  function CheckText(code: ByteArray): ByteArray {
    Masked(TestText(), BookkeepingKey(code))
  }

  method SpecifyDummyKeys(lockCode: ByteArray)
    returns (testCipherText: ByteArray, bkdbKey: ByteArray, deviceLockKey: ByteArray)
    ensures testCipherText == CheckText(lockCode) && |testCipherText| == 43
    ensures bkdbKey == BookkeepingKey(lockCode) && |bkdbKey| == 64
    ensures deviceLockKey == DeviceLockKey(lockCode) && |deviceLockKey| == 32
    // byte by byte: both keys are 'f's under the code, one under its hex form, and the check text is under the first key
    ensures forall i :: 0 <= i < 64 ==> bkdbKey[i] == FILL ^ if i < 2 * |lockCode| then HexAt(lockCode, i) else 0
    ensures forall i :: 0 <= i < 32 ==> deviceLockKey[i] == FILL ^ if i < |lockCode| then lockCode[i] else 0
    ensures forall i :: 0 <= i < 43 ==> testCipherText[i] == TestText()[i] ^ bkdbKey[i]
  {
    hide TestText;
    var buffer := new Byte[64](_ => FILL);
    assert buffer[..] == Filled(64);
    MaskInPlace(buffer, ToHex(lockCode));
    bkdbKey := buffer[..];
    buffer := new Byte[32](_ => FILL);
    assert buffer[..] == Filled(32);
    MaskInPlace(buffer, lockCode);
    deviceLockKey := buffer[..];
    buffer := new Byte[43](i requires 0 <= i < 43 => TestText()[i]);
    assert buffer[..] == TestText();
    MaskInPlace(buffer, bkdbKey);
    testCipherText := buffer[..];
  }

  // ---- which codes the check text tells apart -------------------------------------------------------

  lemma XorCancels(t: Byte, a: Byte, b: Byte)
    ensures t ^ (FILL ^ a) == t ^ (FILL ^ b) <==> a == b
  {
  }

  lemma SameAt(c: ByteArray, d: ByteArray, i: nat)
    requires i < 43
    ensures |CheckText(c)| == |CheckText(d)| == 43
    ensures CheckText(c)[i] == CheckText(d)[i] <==> Padded(ToHex(c), i) == Padded(ToHex(d), i)
  {
    hide TestText, ToHex;
    assert BookkeepingKey(c)[i] == FILL ^ Padded(ToHex(c), i);
    assert BookkeepingKey(d)[i] == FILL ^ Padded(ToHex(d), i);
    XorCancels(TestText()[i], Padded(ToHex(c), i), Padded(ToHex(d), i));
  }

  /** Two codes give the same check text exactly when their hex forms agree on the first 43 positions. */
  lemma SameCheckText(c: ByteArray, d: ByteArray)
    ensures CheckText(c) == CheckText(d) <==>
            forall i :: 0 <= i < 43 ==> Padded(ToHex(c), i) == Padded(ToHex(d), i)
  {
    hide TestText, ToHex, Padded, CheckText;
    SameAt(c, d, 0);
    forall i | 0 <= i < 43
      ensures CheckText(c)[i] == CheckText(d)[i] <==> Padded(ToHex(c), i) == Padded(ToHex(d), i)
    {
      SameAt(c, d, i);
    }
  }

  /** The digits of the hex form. */
  lemma HexDigitsAreLowerCase(n: Byte)
    requires n < 16
    ensures HexDigit(n) as int == "0123456789abcdef"[n as int] as int
  {
    var digits := "0123456789abcdef";
    if n < 10 {
      assert digits[n as int] as int == '0' as int + n as int;
    } else {
      assert digits[n as int] as int == 'a' as int + (n as int - 10);
    }
  }

  lemma HexDigitsTellApart(a: Byte, b: Byte)
    ensures HexDigit(a >> 4) != 0
    ensures HexDigit(a >> 4) == HexDigit(b >> 4) && HexDigit(a & 0x0f) == HexDigit(b & 0x0f) ==> a == b
  {
  }

  /** Codes of at most 21 bytes are all told apart. */
  lemma ShortCodesAreToldApart(c: ByteArray, d: ByteArray)
    requires |c| <= 21 && |d| <= 21 && CheckText(c) == CheckText(d)
    ensures c == d
  {
    SameCheckText(c, d);
    if |c| < |d| { LongerDiffers(c, d); }
    if |d| < |c| { LongerDiffers(d, c); }
    forall i | 0 <= i < |c| ensures c[i] == d[i] {
      assert Padded(ToHex(c), 2 * i) == Padded(ToHex(d), 2 * i);
      assert Padded(ToHex(c), 2 * i + 1) == Padded(ToHex(d), 2 * i + 1);
      HexDigitsTellApart(c[i], d[i]);
    }
  }

  lemma LongerDiffers(c: ByteArray, d: ByteArray)
    requires |c| < |d| <= 21
    ensures Padded(ToHex(c), 2 * |c|) != Padded(ToHex(d), 2 * |c|)
  {
    HexDigitsTellApart(d[|c|], 0);
  }

  /** The bound is sharp: from 22 bytes on there are codes with the same check text. */
  lemma LongCodesCollide(prefix: ByteArray, a: Byte, b: Byte)
    requires |prefix| == 21 && a >> 4 == b >> 4
    ensures CheckText(prefix + [a]) == CheckText(prefix + [b])
  {
    var c, d := prefix + [a], prefix + [b];
    forall i | 0 <= i < 43 ensures Padded(ToHex(c), i) == Padded(ToHex(d), i) {
      assert i == 2 * (i / 2) || i == 2 * (i / 2) + 1;
      if i < 42 { assert c[i / 2] == d[i / 2]; }
    }
    SameCheckText(c, d);
  }
}
