/** AES-CBC with PKCS#7 padding and a prepended initialization vector, over any block cipher. */
module Encryption {
  import opened Resources

  const BLOCK := 16

  type Block = b: Bytes | |b| == BLOCK witness seq(BLOCK, i => 0)

  datatype Error = TooShort | NotBlocks | EmptyData | InvalidPadding

  datatype Result<+T> = Ok(value: T) | Err(error: Error)

  /** A keyed block cipher: the two directions of AES under one key. */
  datatype Cipher = Cipher(enc: Bytes -> Bytes, dec: Bytes -> Bytes)

  ghost predicate IsBlock(b: Bytes) {
    |b| == BLOCK
  }

  /** Both directions map blocks to blocks, and each undoes the other. */
  ghost predicate IsBlockCipher(c: Cipher) {
    forall b: Bytes {:trigger IsBlock(b)} :: IsBlock(b) ==>
      |c.enc(b)| == BLOCK && |c.dec(b)| == BLOCK && c.dec(c.enc(b)) == b && c.enc(c.dec(b)) == b
  }

  function Enc(c: Cipher, b: Bytes): (r: Bytes)
    requires IsBlockCipher(c) && |b| == BLOCK
    ensures |r| == BLOCK
  {
    assert IsBlock(b);
    c.enc(b)
  }

  function Dec(c: Cipher, b: Bytes): (r: Bytes)
    requires IsBlockCipher(c) && |b| == BLOCK
    ensures |r| == BLOCK
  {
    assert IsBlock(b);
    c.dec(b)
  }

  lemma Inverse(c: Cipher, b: Bytes)
    requires IsBlockCipher(c) && |b| == BLOCK
    ensures Dec(c, Enc(c, b)) == b && Enc(c, Dec(c, b)) == b
  {
    assert IsBlock(b);
  }

  // ---- padding (section 6.3 of RFC 5652) ----

  function Repeat(b: bv8, n: nat): Bytes {
    seq(n, i => b)
  }

  function Padding(length: nat): (p: nat)
    ensures 1 <= p <= BLOCK && (length + p) % BLOCK == 0
  {
    BLOCK - length % BLOCK
  }

  function Padded(data: Bytes): Bytes {
    data + Repeat(Padding(|data|) as bv8, Padding(|data|))
  }

  method Pad(data: Bytes) returns (padded: array<bv8>)
    ensures fresh(padded) && padded[..] == Padded(data)
  {
    var p := Padding(|data|);
    padded := new bv8[|data| + p];
    for i := 0 to |data|
      invariant padded[..i] == data[..i]
    {
      padded[i] := data[i];
    }
    for i := |data| to |data| + p
      invariant padded[..|data|] == data
      invariant forall j :: |data| <= j < i ==> padded[j] == p as bv8
    {
      padded[i] := p as bv8;
    }
  }

  /** All p last bytes are the same as the last one, whose value p is. */
  predicate ValidPadding(data: Bytes, p: nat) {
    0 < p <= |data| && forall i :: |data| - p <= i < |data| ==> data[i] == data[|data| - 1]
  }

  /** What is left when the padding is valid; nothing bounds the padding by the block size. */
  function Unpadded(data: Bytes): Result<Bytes> {
    if data == [] then Err(EmptyData)
    else
      var p := data[|data| - 1] as nat;
      if ValidPadding(data, p) then Ok(data[..|data| - p]) else Err(InvalidPadding)
  }

  method Unpad(data: array<bv8>) returns (r: Result<Bytes>)
    ensures r == Unpadded(data[..])
  {
    if data.Length == 0 {
      return Err(EmptyData);
    }
    var last := data[data.Length - 1];
    var p := last as nat;
    if p == 0 || p > data.Length {
      return Err(InvalidPadding);
    }
    for i := data.Length - p to data.Length
      invariant forall j :: data.Length - p <= j < i ==> data[j] == last
    {
      if data[i] != last {
        assert !ValidPadding(data[..], p) by { assert data[..][i] == data[i]; }
        return Err(InvalidPadding);
      }
    }
    return Ok(data[..data.Length - p]);
  }

  lemma UnpadPad(data: Bytes)
    ensures Unpadded(Padded(data)) == Ok(data)
  {
  }

  // ---- chaining (section 6.2 of NIST SP 800-38A) ----

  function Xor(a: Bytes, b: Bytes): (r: Bytes)
    requires |a| == |b|
    ensures |r| == |a|
  {
    seq(|a|, i requires 0 <= i < |a| => a[i] ^ b[i])
  }

  lemma XorTwice(a: Bytes, b: Bytes)
    requires |a| == |b|
    ensures Xor(Xor(a, b), b) == a
  {
  }

  function Encrypted(c: Cipher, iv: Bytes, plain: Bytes): (r: Bytes)
    requires IsBlockCipher(c) && |iv| == BLOCK && |plain| % BLOCK == 0
    ensures |r| == |plain|
    decreases |plain|
  {
    if plain == [] then []
    else
      var block := Enc(c, Xor(plain[..BLOCK], iv));
      block + Encrypted(c, block, plain[BLOCK..])
  }

  function Decrypted(c: Cipher, iv: Bytes, data: Bytes): (r: Bytes)
    requires IsBlockCipher(c) && |iv| == BLOCK && |data| % BLOCK == 0
    ensures |r| == |data|
    decreases |data|
  {
    if data == [] then []
    else Xor(Dec(c, data[..BLOCK]), iv) + Decrypted(c, data[..BLOCK], data[BLOCK..])
  }

  lemma {:induction false} DecryptedEncrypted(c: Cipher, iv: Bytes, plain: Bytes)
    requires IsBlockCipher(c) && |iv| == BLOCK && |plain| % BLOCK == 0
    ensures Decrypted(c, iv, Encrypted(c, iv, plain)) == plain
    decreases |plain|
  {
    if plain != [] {
      var mixed := Xor(plain[..BLOCK], iv);
      var block := Enc(c, mixed);
      var rest := Encrypted(c, block, plain[BLOCK..]);
      assert (block + rest)[..BLOCK] == block && (block + rest)[BLOCK..] == rest;
      DecryptedEncrypted(c, block, plain[BLOCK..]);
      Inverse(c, mixed);
      XorTwice(plain[..BLOCK], iv);
      assert plain == plain[..BLOCK] + plain[BLOCK..];
    }
  }

  lemma {:induction false} EncryptedDecrypted(c: Cipher, iv: Bytes, data: Bytes)
    requires IsBlockCipher(c) && |iv| == BLOCK && |data| % BLOCK == 0
    ensures Encrypted(c, iv, Decrypted(c, iv, data)) == data
    decreases |data|
  {
    if data != [] {
      var block := data[..BLOCK];
      var head := Xor(Dec(c, block), iv);
      var rest := Decrypted(c, block, data[BLOCK..]);
      assert (head + rest)[..BLOCK] == head && (head + rest)[BLOCK..] == rest;
      EncryptedDecrypted(c, block, data[BLOCK..]);
      Inverse(c, block);
      XorTwice(Dec(c, block), iv);
      assert data == block + data[BLOCK..];
    }
  }

  method WriteBlock(dst: array<bv8>, n: nat, block: Block)
    requires n + BLOCK <= dst.Length
    modifies dst
    ensures dst[..n + BLOCK] == old(dst[..n]) + block
  {
    for i := 0 to BLOCK
      invariant dst[..n] == old(dst[..n])
      invariant forall j :: 0 <= j < i ==> dst[n + j] == block[j]
    {
      dst[n + i] := block[i];
    }
  }

  /** Encrypting goes on from any block with the ciphertext block before it. */
  lemma EncryptedFrom(c: Cipher, last: Block, plain: Bytes, n: nat)
    requires IsBlockCipher(c) && |plain| % BLOCK == 0 && n % BLOCK == 0 && n < |plain|
    ensures n + BLOCK <= |plain| && (|plain| - n) % BLOCK == 0
    ensures var block := Enc(c, Xor(plain[n..n + BLOCK], last));
            Encrypted(c, last, plain[n..]) == block + Encrypted(c, block, plain[n + BLOCK..])
  {
    assert plain[n..][..BLOCK] == plain[n..n + BLOCK] && plain[n..][BLOCK..] == plain[n + BLOCK..];
  }

  lemma DecryptedFrom(c: Cipher, last: Block, data: Bytes, n: nat)
    requires IsBlockCipher(c) && |data| % BLOCK == 0 && n % BLOCK == 0 && n < |data|
    ensures n + BLOCK <= |data| && (|data| - n) % BLOCK == 0
    ensures Decrypted(c, last, data[n..]) ==
            Xor(Dec(c, data[n..n + BLOCK]), last) + Decrypted(c, data[n..n + BLOCK], data[n + BLOCK..])
  {
    assert data[n..][..BLOCK] == data[n..n + BLOCK] && data[n..][BLOCK..] == data[n + BLOCK..];
  }

  lemma Associate(a: Bytes, b: Bytes, c: Bytes)
    ensures a + (b + c) == (a + b) + c
  {
  }

  /** Encrypts the blocks of src into dst, one after the other. */
  method EncryptBlocks(c: Cipher, iv: Block, dst: array<bv8>, src: Bytes)
    requires IsBlockCipher(c) && |src| % BLOCK == 0 && dst.Length == |src|
    modifies dst
    ensures dst[..] == Encrypted(c, iv, src)
  {
    var n, last: Block := 0, iv;
    while n < |src|
      invariant n <= |src| && n % BLOCK == 0
      invariant Encrypted(c, iv, src) == dst[..n] + Encrypted(c, last, src[n..])
    {
      EncryptedFrom(c, last, src, n);
      last := Enc(c, Xor(src[n..n + BLOCK], last));
      Associate(dst[..n], last, Encrypted(c, last, src[n + BLOCK..]));
      WriteBlock(dst, n, last);
      n := n + BLOCK;
    }
    assert dst[..n] == dst[..];
  }

  method DecryptBlocks(c: Cipher, iv: Block, dst: array<bv8>, src: Bytes)
    requires IsBlockCipher(c) && |src| % BLOCK == 0 && dst.Length == |src|
    modifies dst
    ensures dst[..] == Decrypted(c, iv, src)
  {
    var n, last: Block := 0, iv;
    while n < |src|
      invariant n <= |src| && n % BLOCK == 0
      invariant Decrypted(c, iv, src) == dst[..n] + Decrypted(c, last, src[n..])
    {
      DecryptedFrom(c, last, src, n);
      var block := Xor(Dec(c, src[n..n + BLOCK]), last);
      last := src[n..n + BLOCK];
      Associate(dst[..n], block, Decrypted(c, last, src[n + BLOCK..]));
      WriteBlock(dst, n, block);
      n := n + BLOCK;
    }
    assert dst[..n] == dst[..];
  }

  /** The n-th block. */
  function BlockAt(data: Bytes, n: nat): (b: Block)
    requires BLOCK * (n + 1) <= |data|
  {
    data[BLOCK * n..BLOCK * (n + 1)]
  }

  /** Every ciphertext block hides its plaintext block behind the ciphertext block before it, the first behind the
      initialization vector. */
  lemma {:induction false} ChainedAt(c: Cipher, iv: Bytes, plain: Bytes, n: nat)
    requires IsBlockCipher(c) && |iv| == BLOCK && |plain| % BLOCK == 0 && BLOCK * (n + 1) <= |plain|
    ensures var data := iv + Encrypted(c, iv, plain);
            BlockAt(data, n + 1) == Enc(c, Xor(BlockAt(plain, n), BlockAt(data, n)))
    decreases n
  {
    var block := Enc(c, Xor(plain[..BLOCK], iv));
    var data := iv + Encrypted(c, iv, plain);
    assert data[BLOCK..] == block + Encrypted(c, block, plain[BLOCK..]);
    if n == 0 {
      assert BlockAt(data, 0) == iv && BlockAt(data, 1) == block;
    } else {
      ChainedAt(c, block, plain[BLOCK..], n - 1);
      assert BlockAt(data, n + 1) == BlockAt(data[BLOCK..], n) && BlockAt(data, n) == BlockAt(data[BLOCK..], n - 1);
      assert BlockAt(plain, n) == BlockAt(plain[BLOCK..], n - 1);
    }
  }

  // ---- encryptor ----

  function Sealed(c: Cipher, iv: Bytes, plain: Bytes): Bytes
    requires IsBlockCipher(c) && |iv| == BLOCK
  {
    iv + Encrypted(c, iv, Padded(plain))
  }

  function Opened(c: Cipher, data: Bytes): Result<Bytes>
    requires IsBlockCipher(c)
  {
    if data == [] then Ok([])
    else if |data| < BLOCK then Err(TooShort)
    else if |data| % BLOCK != 0 then Err(NotBlocks)
    else Unpadded(Decrypted(c, data[..BLOCK], data[BLOCK..]))
  }

  /** iv is what the random source gives. */
  method Encrypt(c: Cipher, iv: Bytes, plain: Bytes) returns (result: Bytes)
    requires IsBlockCipher(c) && |iv| == BLOCK
    ensures result == Sealed(c, iv, plain)
  {
    var padded := Pad(plain);
    var data := new bv8[padded.Length];
    EncryptBlocks(c, iv, data, padded[..]);
    result := iv + data[..];
  }

  method Decrypt(c: Cipher, data: Bytes) returns (r: Result<Bytes>)
    requires IsBlockCipher(c)
    ensures r == Opened(c, data)
  {
    if |data| == 0 {
      return Ok(data);
    }
    if |data| < BLOCK {
      return Err(TooShort);
    }
    if |data| % BLOCK != 0 {
      return Err(NotBlocks);
    }
    var plain := new bv8[|data| - BLOCK];
    DecryptBlocks(c, data[..BLOCK], plain, data[BLOCK..]);
    r := Unpad(plain);
  }

  /** Decryption undoes encryption, for every plaintext and every initialization vector. */
  lemma OpenedSealed(c: Cipher, iv: Bytes, plain: Bytes)
    requires IsBlockCipher(c) && |iv| == BLOCK
    ensures Opened(c, Sealed(c, iv, plain)) == Ok(plain)
    ensures |Sealed(c, iv, plain)| >= 2 * BLOCK
  {
    var padded := Padded(plain);
    var data := Sealed(c, iv, plain);
    assert data[..BLOCK] == iv && data[BLOCK..] == Encrypted(c, iv, padded);
    DecryptedEncrypted(c, iv, padded);
    UnpadPad(plain);
  }

  /** What encryption makes: the vector, and the padded plaintext chained behind it. */
  lemma SealedBlocks(c: Cipher, iv: Bytes, plain: Bytes, n: nat)
    requires IsBlockCipher(c) && |iv| == BLOCK && BLOCK * n <= |plain|
    ensures var s := Sealed(c, iv, plain);
            && |s| == BLOCK * (|plain| / BLOCK + 2) && BlockAt(s, 0) == iv
            && BlockAt(s, n + 1) == Enc(c, Xor(BlockAt(Padded(plain), n), BlockAt(s, n)))
  {
    ChainedAt(c, iv, Padded(plain), n);
  }

  /** What decryption opens: nothing at all, or whole blocks, more than one, whose decryption ends with as many bytes of
      one value as that value says. */
  lemma OpensIff(c: Cipher, data: Bytes)
    requires IsBlockCipher(c)
    ensures Opened(c, data).Ok? <==>
              data == []
              || (|data| >= 2 * BLOCK && |data| % BLOCK == 0
                  && var plain := Decrypted(c, data[..BLOCK], data[BLOCK..]);
                     var p := plain[|plain| - 1] as int;
                     0 < p <= |plain| && forall i :: |plain| - p <= i < |plain| ==> plain[i] as int == p)
  {
  }

  /** The number of padding bytes that decryption found and removed. */
  function Removed(data: Bytes, plain: Bytes): int {
    |data| - BLOCK - |plain|
  }

  lemma RepadUnpadded(data: Bytes, plain: Bytes)
    requires |data| % BLOCK == 0 && Unpadded(data) == Ok(plain)
    ensures Padded(plain) == data <==> |data| - |plain| <= BLOCK
  {
  }

  /** Encrypting plain under the initialization vector that data carries gives data back. */
  predicate Reseals(c: Cipher, data: Bytes, plain: Bytes)
    requires IsBlockCipher(c)
  {
    |data| >= BLOCK && data == Sealed(c, data[..BLOCK], plain)
  }

  lemma SealedRemoves(c: Cipher, data: Bytes, plain: Bytes)
    requires IsBlockCipher(c) && Reseals(c, data, plain)
    ensures Removed(data, plain) <= BLOCK
  {
  }

  lemma ResealOpened(c: Cipher, data: Bytes, plain: Bytes)
    requires IsBlockCipher(c) && data != [] && Opened(c, data) == Ok(plain) && Removed(data, plain) <= BLOCK
    ensures Reseals(c, data, plain)
  {
    var iv, rest := data[..BLOCK], data[BLOCK..];
    RepadUnpadded(Decrypted(c, iv, rest), plain);
    EncryptedDecrypted(c, iv, rest);
    assert data == iv + rest;
  }

  /** Decryption accepts more than encryption makes: a ciphertext it opens is one that encryption makes exactly when
      the padding it removes is no longer than a block. */
  lemma OpenedIsSealedIff(c: Cipher, data: Bytes, plain: Bytes)
    requires IsBlockCipher(c) && data != [] && Opened(c, data) == Ok(plain)
    ensures Reseals(c, data, plain) <==> Removed(data, plain) <= BLOCK
  {
    if Removed(data, plain) <= BLOCK {
      ResealOpened(c, data, plain);
    }
    if Reseals(c, data, plain) {
      SealedRemoves(c, data, plain);
    }
  }
}
