/**
 * The frame cipher of `Rpc._encrypt` / `Rpc._decrypt`: the serialised message
 * is compressed, then every byte is XOR-ed with the repeating key "pan-light".
 * The compressor is a collaborator whose code is not part of this model; it
 * is passed in as a pair of byte-sequence functions, and the round trip is
 * proved under the hypothesis that the pair is inverse.
 */
module Codec {

  type Byte = bv8

  /** The key the client is constructed with (`this.encryptKey`). */
  const EncryptKey: string := "pan-light"

  /**
   * Key byte for stream position `i`: the char code of
   * `EncryptKey[i % EncryptKey.length]`, cut to the 8 bits a `Uint8Array`
   * element keeps.
   */
  function KeyByte(i: nat): Byte
  {
    ((EncryptKey[i % |EncryptKey|] as int) % 256) as Byte
  }

  /** The key stream applied to a whole byte sequence. */
  function XorKey(bs: seq<Byte>): seq<Byte>
  {
    seq(|bs|, i requires 0 <= i < |bs| => bs[i] ^ KeyByte(i))
  }

  /** Compressor and decompressor undo each other (assumed of the collaborator). */
  ghost predicate Inverse(zip: seq<Byte> -> seq<Byte>, unzip: seq<Byte> -> seq<Byte>)
  {
    forall b :: unzip(zip(b)) == b
  }

  /** Every key character is ASCII, so the 8-bit cut never drops a bit. */
  lemma KeyIsAscii(i: nat)
    ensures (EncryptKey[i % |EncryptKey|] as int) < 128
    ensures KeyByte(i) as int == EncryptKey[i % |EncryptKey|] as int
  {
    var j := i % |EncryptKey|;
    assert EncryptKey == ['p', 'a', 'n', '-', 'l', 'i', 'g', 'h', 't'];
    assert j == 0 || j == 1 || j == 2 || j == 3 || j == 4 || j == 5 || j == 6 || j == 7 || j == 8;
    var c := EncryptKey[j] as int;
    assert 0 <= c < 128;
    assert c % 256 == c;
  }

  /** The key stream repeats every nine bytes (no nonce, no IV). */
  lemma KeyStreamPeriodic(i: nat)
    ensures KeyByte(i + |EncryptKey|) == KeyByte(i)
  {
    assert (i + |EncryptKey|) % |EncryptKey| == i % |EncryptKey|;
  }

  /** Applying the key stream twice gives back the original bytes. */
  lemma XorKeyInvolutive(bs: seq<Byte>)
    ensures XorKey(XorKey(bs)) == bs
  {
  }

  /**
   * The known weakness of a stateless stream: frames that share a prefix
   * share the same cipher prefix.
   */
  lemma SharedPrefixSharedCipher(a: seq<Byte>, b: seq<Byte>, k: nat)
    requires k <= |a| && k <= |b| && a[..k] == b[..k]
    ensures XorKey(a)[..k] == XorKey(b)[..k]
  {
  }

  /**
   * `_encrypt`: compress the serialised text, then fill a fresh byte array
   * with compressed byte `i` XOR key byte `i`. Returns the array's bytes.
   */
  method Encrypt(text: seq<Byte>, zip: seq<Byte> -> seq<Byte>) returns (frame: seq<Byte>)
    ensures |frame| == |zip(text)|
    ensures forall i :: 0 <= i < |frame| ==> frame[i] == zip(text)[i] ^ KeyByte(i)
    ensures frame == XorKey(zip(text))
  {
    var bin := zip(text);
    var cipher := new Byte[|bin|];
    var i := 0;
    while i < cipher.Length
      invariant 0 <= i <= cipher.Length
      invariant forall k :: 0 <= k < i ==> cipher[k] == bin[k] ^ KeyByte(k)
    {
      cipher[i] := bin[i] ^ KeyByte(i);
      i := i + 1;
    }
    frame := cipher[..];
  }

  /** The `plain.forEach((b, i) => plain[i] ^= …)` step of `_decrypt`: XOR every byte in place with its key byte. */
  method XorInPlace(plain: array<Byte>)
    modifies plain
    ensures plain[..] == XorKey(old(plain[..]))
  {
    var i := 0;
    while i < plain.Length
      invariant 0 <= i <= plain.Length
      invariant forall k :: 0 <= k < i ==> plain[k] == old(plain[k]) ^ KeyByte(k)
      invariant forall k :: i <= k < plain.Length ==> plain[k] == old(plain[k])
    {
      plain[i] := plain[i] ^ KeyByte(i);
      i := i + 1;
    }
  }

  /**
   * `_decrypt`: copy the received bytes, XOR each one in place with its key
   * byte, decompress, and copy the result into a fresh byte array. The
   * copy is a plain array, so the XOR is not cut to 8 bits; `KeyIsAscii`
   * shows that nothing is lost by working on bytes. The final UTF-8
   * decoding into a string is left to the caller.
   */
  method Decrypt(buf: seq<Byte>, unzip: seq<Byte> -> seq<Byte>) returns (text: seq<Byte>)
    ensures text == unzip(XorKey(buf))
  {
    var plain := new Byte[|buf|](i requires 0 <= i < |buf| => buf[i]);
    assert plain[..] == buf;
    XorInPlace(plain);
    var raw := unzip(plain[..]);
    var bin := new Byte[|raw|];
    var j := 0;
    while j < bin.Length
      invariant 0 <= j <= bin.Length
      invariant forall k :: 0 <= k < j ==> bin[k] == raw[k]
    {
      bin[j] := raw[j];
      j := j + 1;
    }
    text := bin[..];
  }

  /**
   * What `Decrypt` returns for a frame produced by `Encrypt` is the original
   * text, given that the compressor pair is inverse.
   */
  lemma DecryptUndoesEncrypt(text: seq<Byte>, zip: seq<Byte> -> seq<Byte>, unzip: seq<Byte> -> seq<Byte>)
    requires Inverse(zip, unzip)
    ensures unzip(XorKey(XorKey(zip(text)))) == text
  {
    XorKeyInvolutive(zip(text));
  }
}
