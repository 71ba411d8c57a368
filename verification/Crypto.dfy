/** Encryption of the synced database: PKCS#7 padding (section 6.3 of RFC 5652) and cipher block
    chaining (section 6.2 of NIST SP 800-38A) over any block cipher. */
module Crypto {

  type Bytes = seq<bv8>

  const AES_BLOCK_SIZE: nat := 16

  /** A block cipher under a fixed key. */
  datatype Cipher = Cipher(enc: Bytes -> Bytes, dec: Bytes -> Bytes)

  ghost predicate IsCipher(c: Cipher) {
    forall b: Bytes :: |b| == AES_BLOCK_SIZE ==>
      |c.enc(b)| == AES_BLOCK_SIZE && |c.dec(b)| == AES_BLOCK_SIZE && c.dec(c.enc(b)) == b
  }

  datatype Decrypted = Data(data: Bytes) | InvalidIv | NoData | InvalidPadding

  function Xor(a: Bytes, b: Bytes): Bytes
    requires |a| == |b|
  {
    seq(|a|, i requires 0 <= i < |a| => a[i] ^ b[i])
  }

  function Repeat(x: bv8, n: nat): Bytes {
    seq(n, i => x)
  }

  // ----- Chaining -----

  function CbcEncrypt(c: Cipher, iv: Bytes, data: Bytes): Bytes
    requires IsCipher(c) && |iv| == AES_BLOCK_SIZE && |data| % AES_BLOCK_SIZE == 0
    decreases |data|
  {
    if data == [] then []
    else
      var block := c.enc(Xor(data[..16], iv));
      block + CbcEncrypt(c, block, data[16..])
  }

  /** Updating a decryptor without finalizing it: bytes after the last whole block are kept back. */
  function CbcDecrypt(c: Cipher, iv: Bytes, data: Bytes): Bytes
    requires IsCipher(c) && |iv| == AES_BLOCK_SIZE
    decreases |data|
  {
    if |data| < AES_BLOCK_SIZE then []
    else Xor(c.dec(data[..16]), iv) + CbcDecrypt(c, data[..16], data[16..])
  }

  // ----- Padding -----

  function PaddingFor(n: nat): nat {
    AES_BLOCK_SIZE - n % AES_BLOCK_SIZE
  }

  function Pad(source: Bytes): Bytes {
    source + Repeat(PaddingFor(|source|) as bv8, PaddingFor(|source|))
  }

  /** Python's `data[-p:]`: everything when p is zero or too large. */
  function LastBytes(data: Bytes, p: nat): Bytes {
    if p == 0 || p >= |data| then data else data[|data| - p..]
  }

  /** Python's `data[:-p]`: nothing when p is zero or too large. */
  function WithoutLast(data: Bytes, p: nat): Bytes {
    if p == 0 || p >= |data| then [] else data[..|data| - p]
  }

  function Unpad(data: Bytes): Decrypted {
    if data == [] then NoData
    else
      var padding := data[|data| - 1];
      if LastBytes(data, padding as nat) != Repeat(padding, padding as nat) then InvalidPadding
      else Data(WithoutLast(data, padding as nat))
  }

  // ----- The two operations -----

  function Encrypt(c: Cipher, iv: Bytes, source: Bytes): Bytes
    requires IsCipher(c) && |iv| == AES_BLOCK_SIZE
  {
    PadLength(source);
    iv + CbcEncrypt(c, iv, Pad(source))
  }

  function Decrypt(c: Cipher, source: Bytes): Decrypted
    requires IsCipher(c)
  {
    if |source| < AES_BLOCK_SIZE then InvalidIv
    else Unpad(CbcDecrypt(c, source[..16], source[16..]))
  }

  // ----- Properties -----

  lemma PadLength(source: Bytes)
    ensures |Pad(source)| % AES_BLOCK_SIZE == 0 && |source| < |Pad(source)| <= |source| + AES_BLOCK_SIZE
  {
  }

  lemma XorTwice(a: Bytes, b: Bytes)
    requires |a| == |b|
    ensures Xor(Xor(a, b), b) == a
  {
    forall i | 0 <= i < |a| ensures Xor(Xor(a, b), b)[i] == a[i] {
      XorByte(a[i], b[i]);
    }
  }

  lemma XorByte(x: bv8, y: bv8)
    ensures (x ^ y) ^ y == x
  {
  }

  /** Chaining is undone block by block. */
  lemma {:induction false} CbcRoundTrip(c: Cipher, iv: Bytes, data: Bytes)
    requires IsCipher(c) && |iv| == AES_BLOCK_SIZE && |data| % AES_BLOCK_SIZE == 0
    ensures CbcDecrypt(c, iv, CbcEncrypt(c, iv, data)) == data
    decreases |data|
  {
    if data != [] {
      var x := Xor(data[..16], iv);
      var block := c.enc(x);
      var rest := CbcEncrypt(c, block, data[16..]);
      var all := block + rest;
      assert all[..16] == block && all[16..] == rest;
      XorTwice(data[..16], iv);
      CbcRoundTrip(c, block, data[16..]);
      assert data == data[..16] + data[16..];
    }
  }

  function Block(data: Bytes, i: nat): Bytes
    requires 16 * i + 16 <= |data|
  {
    data[16 * i..16 * i + 16]
  }

  lemma BlockShift(head: Bytes, tail: Bytes, i: nat)
    requires |head| == 16 && 16 * i + 16 <= |tail|
    ensures Block(head + tail, i + 1) == Block(tail, i)
  {
  }

  /** Every ciphertext block is the encryption of its plaintext block combined with the ciphertext block
      before, the IV for the first. */
  lemma {:induction false} CbcBlocks(c: Cipher, iv: Bytes, data: Bytes, i: nat)
    requires IsCipher(c) && |iv| == AES_BLOCK_SIZE && |data| % AES_BLOCK_SIZE == 0 && 16 * i < |data|
    ensures var e := CbcEncrypt(c, iv, data);
            && |e| == |data| && 16 * i + 16 <= |data|
            && Block(e, i) == c.enc(Xor(Block(data, i), if i == 0 then iv else Block(e, i - 1)))
    decreases |data|
  {
    hide Block, Xor, IsCipher;
    var first, others := data[..16], data[16..];
    assert data == first + others;
    var block := FirstBlock(c, iv, data);
    var rest := CbcEncrypt(c, block, others);
    CbcLength(c, block, others);
    if i == 0 {
      FrontBlock(block, rest);
      FrontBlock(first, others);
    } else {
      CbcBlocks(c, block, others, i - 1);
      BlockShift(block, rest, i - 1);
      BlockShift(first, others, i - 1);
      if i == 1 {
        FrontBlock(block, rest);
      } else {
        BlockShift(block, rest, i - 2);
      }
    }
  }

  lemma FrontBlock(head: Bytes, tail: Bytes)
    requires |head| == 16
    ensures Block(head + tail, 0) == head
  {
  }

  lemma FirstBlock(c: Cipher, iv: Bytes, data: Bytes) returns (block: Bytes)
    requires IsCipher(c) && |iv| == AES_BLOCK_SIZE && |data| % AES_BLOCK_SIZE == 0 && data != []
    ensures |data| >= 16 && |Xor(data[..16], iv)| == 16 && block == c.enc(Xor(data[..16], iv)) && |block| == 16
    ensures CbcEncrypt(c, iv, data) == block + CbcEncrypt(c, block, data[16..])
  {
    block := c.enc(Xor(data[..16], iv));
  }

  lemma {:induction false} CbcLength(c: Cipher, iv: Bytes, data: Bytes)
    requires IsCipher(c) && |iv| == AES_BLOCK_SIZE && |data| % AES_BLOCK_SIZE == 0
    ensures |CbcEncrypt(c, iv, data)| == |data|
    decreases |data|
  {
    if data != [] {
      CbcLength(c, c.enc(Xor(data[..16], iv)), data[16..]);
    }
  }

  /** `data` is `d` followed by p copies of the byte p. */
  ghost predicate PaddedWith(data: Bytes, d: Bytes, p: bv8) {
    p > 0 && data == d + Repeat(p, p as nat)
  }

  /** Decryption either refuses decrypted data or strips exactly a padding: it returns `d` if and
      only if the data is `d` followed by p copies of the byte p, for some p > 0. */
  lemma UnpadIff(data: Bytes, d: Bytes)
    requires data != []
    ensures Unpad(data) == Data(d) <==> exists p: bv8 :: PaddedWith(data, d, p)
  {
    hide Unpad, PaddedWith;
    if Unpad(data) == Data(d) {
      UnpadSound(data, d);
    }
    if p: bv8 :| PaddedWith(data, d, p) {
      UnpadComplete(data, d, p);
    }
  }

  lemma UnpadSound(data: Bytes, d: Bytes)
    requires Unpad(data) == Data(d)
    ensures PaddedWith(data, d, data[|data| - 1])
  {
    var last := data[|data| - 1];
    PaddingPositive(data, last);
    SplitAtPadding(data, last as nat);
  }

  lemma SplitAtPadding(data: Bytes, n: nat)
    requires 0 < n <= |data|
    ensures data == WithoutLast(data, n) + LastBytes(data, n)
  {
  }

  lemma UnpadComplete(data: Bytes, d: Bytes, p: bv8)
    requires PaddedWith(data, d, p)
    ensures Unpad(data) == Data(d)
  {
    PositiveLength(p);
    EndOfPadded(d, p, p as nat);
  }

  lemma EndOfPadded(d: Bytes, p: bv8, n: nat)
    requires n > 0
    ensures var data := d + Repeat(p, n);
      data[|data| - 1] == p && LastBytes(data, n) == Repeat(p, n) && WithoutLast(data, n) == d
  {
    var data := d + Repeat(p, n);
    assert data[|d|..] == Repeat(p, n) && data[..|d|] == d;
  }

  lemma PositiveLength(p: bv8)
    requires p > 0
    ensures p as nat > 0
  {
  }

  /** A zero last byte never passes: the whole data is compared with nothing. */
  lemma PaddingPositive(data: Bytes, last: bv8)
    requires data != [] && last == data[|data| - 1] && LastBytes(data, last as nat) == Repeat(last, last as nat)
    ensures last > 0 && last as nat <= |data|
  {
    assert |LastBytes(data, last as nat)| == last as nat;
    assert |LastBytes(data, last as nat)| > 0;
  }

  lemma UnpadPad(source: Bytes)
    ensures Unpad(Pad(source)) == Data(source)
  {
    var n := PaddingFor(|source|);
    PadLength(source);
    assert n as bv8 > 0 && (n as bv8) as nat == n;
    assert PaddedWith(Pad(source), source, n as bv8);
    UnpadIff(Pad(source), source);
  }

  /** Decrypting undoes encrypting, for every cipher (hence every key), IV and message length. */
  lemma EncryptRoundTrip(c: Cipher, iv: Bytes, source: Bytes)
    requires IsCipher(c) && |iv| == AES_BLOCK_SIZE
    ensures Decrypt(c, Encrypt(c, iv, source)) == Data(source)
  {
    var all := Encrypt(c, iv, source);
    PadLength(source);
    assert all[..16] == iv && all[16..] == CbcEncrypt(c, iv, Pad(source));
    CbcRoundTrip(c, iv, Pad(source));
    UnpadPad(source);
  }
}
