/**
 The byte-level envelope every record is stored in: CTR encryption (section 6.5 of NIST SP 800-38A), then
 an HMAC over the ciphertext (section 2 of RFC 2104), and the derivation of the keys.

 The hash, the HMAC and the AES block function are parameters; only the lengths of what they return are
 assumed.  A panic of the program is an explicit result.
 */
module Envelope {
  import opened Wrappers
  import opened Blocks

  const AES_BLOCK: nat := 16
  const KEY_SIZE: nat := 16
  const MAC_SIZE: nat := 64

  datatype Fault = ShortPayload | BadMac | BadKeyLength | Panic

  datatype Crypto = Crypto(
    hash: seq<byte> -> seq<byte>,
    hmac: (seq<byte>, seq<byte>) -> seq<byte>,
    aes: (seq<byte>, seq<byte>) -> seq<byte>)

  /** SHA-512 and HMAC-SHA-512 return 64 bytes, the block function returns a block. */
  ghost predicate Sized(cry: Crypto) {
    && (forall x :: |cry.hash(x)| == MAC_SIZE)
    && (forall k, m :: |cry.hmac(k, m)| == MAC_SIZE)
    && forall k, b :: |cry.aes(k, b)| == AES_BLOCK
  }

  // ---------- exclusive or ----------

  function XorBits(a: nat, b: nat, bits: nat): nat {
    if bits == 0 then 0 else (if a % 2 == b % 2 then 0 else 1) + 2 * XorBits(a / 2, b / 2, bits - 1)
  }

  function Power(base: nat, n: nat): (p: nat) {
    if n == 0 then 1 else base * Power(base, n - 1)
  }

  lemma {:induction false} XorBitsBound(a: nat, b: nat, bits: nat)
    ensures XorBits(a, b, bits) < Power(2, bits)
  {
    if bits > 0 {
      XorBitsBound(a / 2, b / 2, bits - 1);
    }
  }

  lemma Halves(bit: nat, half: nat)
    requires bit < 2
    ensures (bit + 2 * half) / 2 == half && (bit + 2 * half) % 2 == bit
  {
  }

  lemma {:induction false} XorBitsUndone(a: nat, b: nat, bits: nat)
    requires a < Power(2, bits)
    ensures XorBits(XorBits(a, b, bits), b, bits) == a
  {
    if bits > 0 {
      var bit := if a % 2 == b % 2 then 0 else 1;
      var half := XorBits(a / 2, b / 2, bits - 1);
      Halves(bit, half);
      XorBitsUndone(a / 2, b / 2, bits - 1);
      assert XorBits(a, b, bits) == bit + 2 * half;
      assert XorBits(bit + 2 * half, b, bits) == (if bit == b % 2 then 0 else 1) + 2 * XorBits(half, b / 2, bits - 1);
    }
  }

  function Xor(a: byte, b: byte): byte {
    XorBitsBound(a, b, 8);
    assert Power(2, 8) == 256;
    XorBits(a, b, 8)
  }

  lemma XorUndone(a: byte, b: byte)
    ensures Xor(Xor(a, b), b) == a
  {
    assert Power(2, 8) == 256;
    XorBitsUndone(a, b, 8);
  }

  /** Binary digit `j` of `x`, the least significant first. */
  predicate Bit(x: nat, j: nat) {
    if j == 0 then x % 2 == 1 else Bit(x / 2, j - 1)
  }

  lemma {:induction false} XorBitsAt(a: nat, b: nat, bits: nat, j: nat)
    requires j < bits
    ensures Bit(XorBits(a, b, bits), j) <==> Bit(a, j) != Bit(b, j)
  {
    var bit := if a % 2 == b % 2 then 0 else 1;
    var half := XorBits(a / 2, b / 2, bits - 1);
    Halves(bit, half);
    if j > 0 {
      XorBitsAt(a / 2, b / 2, bits - 1, j - 1);
    }
  }

  /** Exclusive or is the operation on the eight bits of a byte. */
  lemma XorAt(a: byte, b: byte, j: nat)
    requires j < 8
    ensures Bit(Xor(a, b), j) <==> Bit(a, j) != Bit(b, j)
  {
    XorBitsAt(a, b, 8, j);
  }

  // ---------- the counter ----------

  /** The number a block denotes, most significant byte first. */
  function ToNat(b: seq<byte>): nat {
    if b == [] then 0 else ToNat(b[..|b| - 1]) * 256 + b[|b| - 1]
  }

  /** Add one with carry, dropping the carry out of the first byte. */
  function Increment(b: seq<byte>): (r: seq<byte>)
    ensures |r| == |b|
  {
    if b == [] then []
    else
      var most, last := b[..|b| - 1], b[|b| - 1];
      if last < 255 then most + [last + 1] else Increment(most) + [0]
  }

  function CounterBlock(iv: seq<byte>, n: nat): (r: seq<byte>)
    ensures |r| == |iv|
  {
    if n == 0 then iv else Increment(CounterBlock(iv, n - 1))
  }

  lemma {:induction false} ToNatBound(b: seq<byte>)
    ensures ToNat(b) < Power(256, |b|)
  {
    if b != [] {
      ToNatBound(b[..|b| - 1]);
    }
  }

  /** A byte denotes itself, and the bytes in front weigh 256 times more for every byte behind them. */
  lemma {:induction false} ToNatSplit(a: seq<byte>, b: seq<byte>)
    ensures |b| == 1 ==> ToNat(b) == b[0]
    ensures ToNat(a + b) == ToNat(a) * Power(256, |b|) + ToNat(b)
  {
    if b == [] {
      assert a + b == a;
    } else {
      var most := b[..|b| - 1];
      ToNatSplit(a, most);
      assert (a + b)[..|a + b| - 1] == a + most;
      Scaled(ToNat(a), Power(256, |most|));
    }
  }

  lemma Scaled(a: nat, p: nat)
    ensures a * p * 256 == a * (256 * p)
  {
  }

  /** A number has one form of each length. */
  lemma {:induction false} ToNatInjective(a: seq<byte>, b: seq<byte>)
    requires |a| == |b| && ToNat(a) == ToNat(b)
    ensures a == b
  {
    if a != [] {
      ToNatInjective(a[..|a| - 1], b[..|b| - 1]);
      assert a == a[..|a| - 1] + [a[|a| - 1]] && b == b[..|b| - 1] + [b[|b| - 1]];
    }
  }

  /** Incrementing is addition of one modulo 2^(8 |b|). */
  lemma {:induction false} IncrementAdds(b: seq<byte>)
    ensures ToNat(Increment(b)) == if ToNat(b) + 1 == Power(256, |b|) then 0 else ToNat(b) + 1
  {
    ToNatBound(b);
    if b != [] {
      var most, last := b[..|b| - 1], b[|b| - 1];
      ToNatBound(most);
      IncrementAdds(most);
      if last < 255 {
        assert (most + [last + 1])[..|b| - 1] == most;
      } else {
        assert (Increment(most) + [0])[..|b| - 1] == Increment(most);
      }
    }
  }

  lemma {:induction false} CounterAdds(iv: seq<byte>, n: nat)
    ensures var p := Power(256, |iv|);
            ToNat(CounterBlock(iv, n)) < p && exists wraps: nat ::
              ToNat(iv) + n == ToNat(CounterBlock(iv, n)) + wraps * p
  {
    var p := Power(256, |iv|);
    ToNatBound(iv);
    if n == 0 {
      assert ToNat(iv) + 0 == ToNat(CounterBlock(iv, 0)) + 0 * p;
    } else {
      CounterAdds(iv, n - 1);
      var before := CounterBlock(iv, n - 1);
      var wraps: nat :| ToNat(iv) + (n - 1) == ToNat(before) + wraps * p;
      IncrementAdds(before);
      ToNatBound(CounterBlock(iv, n));
      if ToNat(before) + 1 == p {
        assert ToNat(iv) + n == ToNat(CounterBlock(iv, n)) + (wraps + 1) * p;
      } else {
        assert ToNat(iv) + n == ToNat(CounterBlock(iv, n)) + wraps * p;
      }
    }
  }

  lemma {:induction false} Multiples(p: nat, a: nat, b: nat)
    requires a <= b
    ensures a * p <= b * p && (a < b ==> a * p + p <= b * p)
    decreases b
  {
    if a < b {
      Multiples(p, a, b - 1);
      assert b * p == (b - 1) * p + p;
    }
  }

  /** Within one message of fewer than 2^128 blocks no counter block is used twice. */
  lemma CountersDistinct(iv: seq<byte>, m: nat, n: nat)
    requires m < n && n - m < Power(256, |iv|)
    ensures CounterBlock(iv, m) != CounterBlock(iv, n)
  {
    var p := Power(256, |iv|);
    CounterAdds(iv, m);
    CounterAdds(iv, n);
    var a: nat :| ToNat(iv) + m == ToNat(CounterBlock(iv, m)) + a * p;
    var b: nat :| ToNat(iv) + n == ToNat(CounterBlock(iv, n)) + b * p;
    if a < b {
      Multiples(p, a, b);
    } else {
      Multiples(p, b, a);
    }
  }

  const TWO_TO_THE_128: nat := 0x1_0000_0000_0000_0000_0000_0000_0000_0000

  lemma BlockModulus()
    ensures Power(256, 16) == TWO_TO_THE_128
  {
    assert Power(256, 4) == 0x1_0000_0000;
    assert Power(256, 8) == 0x1_0000_0000_0000_0000;
    assert Power(256, 12) == 0x1_0000_0000_0000_0000_0000_0000;
  }

  lemma Division(n: nat, p: nat)
    requires p > 0
    ensures n == n / p * p + n % p && 0 <= n % p < p
  {
  }

  lemma Remainder(n: nat, p: nat, wraps: nat, m: nat)
    requires n == m + wraps * p && m < p
    ensures n % p == m
  {
    var q := n / p;
    Division(n, p);
    if q < wraps {
      Multiples(p, q, wraps);
    } else if wraps < q {
      Multiples(p, wraps, q);
    }
  }

  /** The block for the n-th step is the one whose number is the IV's number plus n, modulo 2^128. */
  lemma CounterIs(iv: seq<byte>, n: nat, block: seq<byte>)
    requires |iv| == |block| == 16 && ToNat(block) == (ToNat(iv) + n) % TWO_TO_THE_128
    ensures CounterBlock(iv, n) == block
  {
    BlockModulus();
    CounterAdds(iv, n);
    var wraps: nat :| ToNat(iv) + n == ToNat(CounterBlock(iv, n)) + wraps * Power(256, 16);
    Remainder(ToNat(iv) + n, TWO_TO_THE_128, wraps, ToNat(CounterBlock(iv, n)));
    ToNatInjective(CounterBlock(iv, n), block);
  }

  // ---------- encryption ----------

  /** The key stream byte for position i. */
  function StreamByte(cry: Crypto, key: seq<byte>, iv: seq<byte>, i: nat): byte
  {
    var block := cry.aes(key, CounterBlock(iv, i / AES_BLOCK));
    if i % AES_BLOCK < |block| then block[i % AES_BLOCK] else 0
  }

  function Crypted(cry: Crypto, key: seq<byte>, iv: seq<byte>, data: seq<byte>): (r: seq<byte>)
    ensures |r| == |data|
  {
    seq(|data|, i requires 0 <= i < |data| => Xor(data[i], StreamByte(cry, key, iv, i)))
  }

  lemma CryptedTwice(cry: Crypto, key: seq<byte>, iv: seq<byte>, data: seq<byte>)
    ensures Crypted(cry, key, iv, Crypted(cry, key, iv, data)) == data
  {
    var once := Crypted(cry, key, iv, data);
    forall i | 0 <= i < |data|
      ensures Crypted(cry, key, iv, once)[i] == data[i]
    {
      XorUndone(data[i], StreamByte(cry, key, iv, i));
    }
  }

  predicate CipherKey(key: seq<byte>) {
    |key| == 16 || |key| == 24 || |key| == 32
  }

  function Encryption(cry: Crypto, key: seq<byte>, iv: seq<byte>, plaintext: seq<byte>): Result<seq<byte>, Fault> {
    if |iv| != AES_BLOCK || !CipherKey(key) then Failure(Panic)
    else Success(iv + Crypted(cry, key, iv, plaintext))
  }

  function Decryption(cry: Crypto, key: seq<byte>, ciphertext: seq<byte>): Result<seq<byte>, Fault> {
    if !CipherKey(key) || |ciphertext| < AES_BLOCK then Failure(Panic)
    else Success(Crypted(cry, key, ciphertext[..AES_BLOCK], ciphertext[AES_BLOCK..]))
  }

  lemma NextBlock(i: nat)
    ensures (i + 1) % AES_BLOCK == 0 ==> (i + 1) / AES_BLOCK == i / AES_BLOCK + 1
    ensures (i + 1) % AES_BLOCK != 0 ==> (i + 1) / AES_BLOCK == i / AES_BLOCK
  {
  }

  /** The stream mode: one counter, stepped after every block, over a buffer filled from `at` on. */
  method XORKeyStream(cry: Crypto, key: seq<byte>, iv: seq<byte>, dst: array<byte>, at: nat, src: seq<byte>)
    requires Sized(cry) && at + |src| <= dst.Length
    modifies dst
    ensures dst[at..at + |src|] == Crypted(cry, key, iv, src)
    ensures dst[..at] == old(dst[..at]) && dst[at + |src|..] == old(dst[at + |src|..])
  {
    var counter := iv;
    for i := 0 to |src|
      invariant counter == CounterBlock(iv, i / AES_BLOCK)
      invariant dst[..at] == old(dst[..at]) && dst[at + |src|..] == old(dst[at + |src|..])
      invariant forall j :: 0 <= j < i ==> dst[at + j] == Crypted(cry, key, iv, src)[j]
    {
      dst[at + i] := Xor(src[i], cry.aes(key, counter)[i % AES_BLOCK]);
      NextBlock(i);
      if (i + 1) % AES_BLOCK == 0 {
        counter := Increment(counter);
      }
    }
  }

  method SymEnc(cry: Crypto, key: seq<byte>, iv: seq<byte>, plaintext: seq<byte>) returns (r: Result<seq<byte>, Fault>)
    requires Sized(cry)
    ensures r == Encryption(cry, key, iv, plaintext)
  {
    if |iv| != AES_BLOCK {
      return Failure(Panic);
    }
    if !CipherKey(key) {
      return Failure(Panic);
    }
    var ciphertext := new byte[AES_BLOCK + |plaintext|](_ => 0);
    XORKeyStream(cry, key, iv, ciphertext, AES_BLOCK, plaintext);
    ghost var crypted := ciphertext[AES_BLOCK..AES_BLOCK + |plaintext|];
    forall i | 0 <= i < AES_BLOCK {
      ciphertext[i] := iv[i];
    }
    assert ciphertext[..AES_BLOCK] == iv && ciphertext[AES_BLOCK..AES_BLOCK + |plaintext|] == crypted;
    assert ciphertext[..] == ciphertext[..AES_BLOCK] + ciphertext[AES_BLOCK..AES_BLOCK + |plaintext|];
    r := Success(ciphertext[..]);
  }

  method SymDec(cry: Crypto, key: seq<byte>, ciphertext: seq<byte>) returns (r: Result<seq<byte>, Fault>)
    requires Sized(cry)
    ensures r == Decryption(cry, key, ciphertext)
  {
    if !CipherKey(key) {
      return Failure(Panic);
    }
    if |ciphertext| < AES_BLOCK {
      return Failure(Panic);
    }
    var iv, rest := ciphertext[..AES_BLOCK], ciphertext[AES_BLOCK..];
    var plaintext := new byte[|rest|](_ => 0);
    XORKeyStream(cry, key, iv, plaintext, 0, rest);
    assert plaintext[..] == plaintext[0..0 + |rest|];
    r := Success(plaintext[..]);
  }

  /** The two panics of encrypting, and the two of decrypting. */
  lemma CipherPanics(cry: Crypto, key: seq<byte>, iv: seq<byte>, text: seq<byte>)
    ensures Encryption(cry, key, iv, text) == Failure(Panic) <==> |iv| != 16 || |key| !in {16, 24, 32}
    ensures Encryption(cry, key, iv, text).Failure? ==> Encryption(cry, key, iv, text).error == Panic
    ensures Decryption(cry, key, text) == Failure(Panic) <==> |text| < 16 || |key| !in {16, 24, 32}
    ensures Decryption(cry, key, text).Failure? ==> Decryption(cry, key, text).error == Panic
  {
  }

  /**
   What encryption computes.  The IV comes first; then every bit of every byte is the bit of the plaintext, flipped
   where the key stream has a one.  The key stream for bytes 16 k to 16 k + 15 is the block function of the key
   on the block whose number is that of the IV plus k, modulo 2^128.
   */
  lemma EncryptsBits(cry: Crypto, key: seq<byte>, iv: seq<byte>, text: seq<byte>, i: nat, block: seq<byte>, j: nat)
    requires Sized(cry) && |iv| == 16 && |key| in {16, 24, 32} && i < |text| && j < 8
    requires |block| == 16 && ToNat(block) == (ToNat(iv) + i / 16) % TWO_TO_THE_128
    ensures Encryption(cry, key, iv, text).Success?
    ensures var c := Encryption(cry, key, iv, text).value;
            && |c| == 16 + |text| && c[..16] == iv
            && (Bit(c[16 + i], j) <==> Bit(text[i], j) != Bit(cry.aes(key, block)[i % 16], j))
  {
    CounterIs(iv, i / 16, block);
    XorAt(text[i], cry.aes(key, block)[i % 16], j);
  }

  /** What decryption computes: the same stream, started at the first 16 bytes, taken off the rest. */
  lemma DecryptsBits(cry: Crypto, key: seq<byte>, c: seq<byte>, i: nat, block: seq<byte>, j: nat)
    requires Sized(cry) && |key| in {16, 24, 32} && 16 + i < |c| && j < 8
    requires |block| == 16 && ToNat(block) == (ToNat(c[..16]) + i / 16) % TWO_TO_THE_128
    ensures Decryption(cry, key, c).Success?
    ensures var text := Decryption(cry, key, c).value;
            && |text| == |c| - 16
            && (Bit(text[i], j) <==> Bit(c[16 + i], j) != Bit(cry.aes(key, block)[i % 16], j))
  {
    CounterIs(c[..16], i / 16, block);
    XorAt(c[16 + i], cry.aes(key, block)[i % 16], j);
  }

  // ---------- encrypt, then authenticate ----------

  function HMACEval(cry: Crypto, key: seq<byte>, msg: seq<byte>): Result<seq<byte>, Fault> {
    if |key| != KEY_SIZE then Failure(BadKeyLength) else Success(cry.hmac(key, msg))
  }

  /** Both keys of an envelope are hashed and cut to 16 bytes first. */
  function ShortKey(cry: Crypto, key: seq<byte>): (r: seq<byte>)
    requires Sized(cry)
    ensures |r| == KEY_SIZE
  {
    cry.hash(key)[..KEY_SIZE]
  }

  function Tag(cry: Crypto, macKey: seq<byte>, ciphertext: seq<byte>): (r: seq<byte>)
    requires Sized(cry)
    ensures |r| == MAC_SIZE
  {
    cry.hmac(ShortKey(cry, macKey), ciphertext)
  }

  /** The payload `EncryptAndMAC` makes with the random bytes `iv`. */
  function Enveloped(cry: Crypto, data: seq<byte>, encKey: seq<byte>, macKey: seq<byte>, iv: seq<byte>): seq<byte>
    requires Sized(cry)
  {
    var ciphertext := iv + Crypted(cry, ShortKey(cry, encKey), iv, data);
    ciphertext + Tag(cry, macKey, ciphertext)
  }

  method EncryptAndMAC(cry: Crypto, data: seq<byte>, encKey: seq<byte>, macKey: seq<byte>, iv: seq<byte>)
      returns (payload: Result<seq<byte>, Fault>)
    requires Sized(cry) && |iv| == AES_BLOCK
    ensures payload == Success(Enveloped(cry, data, encKey, macKey, iv))
  {
    var aesKey := cry.hash(encKey)[..16];
    var hmacKey := cry.hash(macKey)[..16];
    var encrypted := SymEnc(cry, aesKey, iv, data);
    var ciphertext := encrypted.value;
    // The key is always 16 bytes here, so the evaluation cannot fail.
    var mac := HMACEval(cry, hmacKey, ciphertext);
    payload := Success(ciphertext + mac.value);
  }

  function Unsealed(cry: Crypto, payload: seq<byte>, encKey: seq<byte>, macKey: seq<byte>): Result<seq<byte>, Fault>
    requires Sized(cry)
  {
    if |payload| < MAC_SIZE then Failure(ShortPayload)
    else
      var ciphertext, mac := payload[..|payload| - MAC_SIZE], payload[|payload| - MAC_SIZE..];
      if mac != Tag(cry, macKey, ciphertext) then Failure(BadMac)
      else Decryption(cry, ShortKey(cry, encKey), ciphertext)
  }

  method DecryptAndVerify(cry: Crypto, payload: seq<byte>, encKey: seq<byte>, macKey: seq<byte>)
      returns (plaintext: Result<seq<byte>, Fault>)
    requires Sized(cry)
    ensures plaintext == Unsealed(cry, payload, encKey, macKey)
  {
    if |payload| < 64 {
      return Failure(ShortPayload);
    }
    var macOffset := |payload| - 64;
    var ciphertext := payload[..macOffset];
    var receiveMac := payload[macOffset..];
    var aesKey := cry.hash(encKey)[..16];
    var hmacKey := cry.hash(macKey)[..16];
    var expectMac := HMACEval(cry, hmacKey, ciphertext);
    if receiveMac != expectMac.value {
      return Failure(BadMac);
    }
    plaintext := SymDec(cry, aesKey, ciphertext);
  }

  lemma EnvelopeParts(cry: Crypto, data: seq<byte>, encKey: seq<byte>, macKey: seq<byte>, iv: seq<byte>)
    requires Sized(cry) && |iv| == AES_BLOCK
    ensures var p, c := Enveloped(cry, data, encKey, macKey, iv), iv + Crypted(cry, ShortKey(cry, encKey), iv, data);
            && |p| == |data| + AES_BLOCK + MAC_SIZE && p[..|p| - MAC_SIZE] == c
               && p[|p| - MAC_SIZE..] == Tag(cry, macKey, c)
            && c[..AES_BLOCK] == iv && c[AES_BLOCK..] == Crypted(cry, ShortKey(cry, encKey), iv, data)
  {
  }

  /** Round trip: whatever was sealed opens under the same two keys, of any length. */
  lemma RoundTrip(cry: Crypto, data: seq<byte>, encKey: seq<byte>, macKey: seq<byte>, iv: seq<byte>)
    requires Sized(cry) && |iv| == AES_BLOCK
    ensures Unsealed(cry, Enveloped(cry, data, encKey, macKey, iv), encKey, macKey) == Success(data)
    ensures |Enveloped(cry, data, encKey, macKey, iv)| == |data| + 80
  {
    EnvelopeParts(cry, data, encKey, macKey, iv);
    CryptedTwice(cry, ShortKey(cry, encKey), iv, data);
  }

  /**
   What opens.  A payload opens if and only if it is an envelope under these keys, and then to the data in
   it.  So nothing that was not sealed under the keys opens, unless its tag is a forgery.
   */
  lemma OpensIffSealed(cry: Crypto, payload: seq<byte>, encKey: seq<byte>, macKey: seq<byte>, data: seq<byte>)
    requires Sized(cry)
    ensures Unsealed(cry, payload, encKey, macKey) == Success(data)
       <==> exists iv :: |iv| == AES_BLOCK && payload == Enveloped(cry, data, encKey, macKey, iv)
  {
    if Unsealed(cry, payload, encKey, macKey) == Success(data) {
      var c, key := payload[..|payload| - MAC_SIZE], ShortKey(cry, encKey);
      CryptedTwice(cry, key, c[..AES_BLOCK], c[AES_BLOCK..]);
      assert c == c[..AES_BLOCK] + c[AES_BLOCK..] && payload == c + payload[|payload| - MAC_SIZE..];
      assert payload == Enveloped(cry, data, encKey, macKey, c[..AES_BLOCK]);
    }
    forall iv | |iv| == AES_BLOCK && payload == Enveloped(cry, data, encKey, macKey, iv)
      ensures Unsealed(cry, payload, encKey, macKey) == Success(data)
    {
      RoundTrip(cry, data, encKey, macKey, iv);
    }
  }

  /**
   What a payload is, byte for byte: the IV and the text encrypted under the first 16 bytes of one hash, then the
   HMAC of all of that under the first 16 bytes of another.
   */
  lemma PayloadIs(cry: Crypto, data: seq<byte>, encKey: seq<byte>, macKey: seq<byte>, iv: seq<byte>)
    requires Sized(cry) && |iv| == 16
    ensures var p, n := Enveloped(cry, data, encKey, macKey, iv), 16 + |data|;
            && |p| == n + 64 && p[..16] == iv
            && Encryption(cry, cry.hash(encKey)[..16], iv, data) == Success(p[..n])
            && p[n..] == cry.hmac(cry.hash(macKey)[..16], p[..n])
  {
    EnvelopeParts(cry, data, encKey, macKey, iv);
  }

  /** What the last 64 bytes of a payload have to be. */
  predicate Tagged(cry: Crypto, payload: seq<byte>, macKey: seq<byte>)
    requires Sized(cry) && |payload| >= 64
  {
    var n := |payload| - 64;
    payload[n..] == cry.hmac(cry.hash(macKey)[..16], payload[..n])
  }

  /** Every answer of opening, by length and tag; and what a payload opens to. */
  lemma OpensAs(cry: Crypto, payload: seq<byte>, encKey: seq<byte>, macKey: seq<byte>)
    requires Sized(cry)
    ensures var r := Unsealed(cry, payload, encKey, macKey);
            && (r == Failure(ShortPayload) <==> |payload| < 64)
            && (r == Failure(BadMac) <==> |payload| >= 64 && !Tagged(cry, payload, macKey))
            && (r == Failure(Panic) <==> 64 <= |payload| < 80 && Tagged(cry, payload, macKey))
            && (r.Success? <==> |payload| >= 80 && Tagged(cry, payload, macKey))
            && (r.Success? ==> r == Decryption(cry, cry.hash(encKey)[..16], payload[..|payload| - 64]))
  {
  }

  /**
   Tampering.  Let a payload open.  Another text in front of the same tag, IV included, is refused as tampered
   with unless the HMAC collides on the two; another tag behind the same text is always refused.
   */
  lemma TamperedRefused(cry: Crypto, payload: seq<byte>, other: seq<byte>, encKey: seq<byte>, macKey: seq<byte>)
    requires Sized(cry) && Unsealed(cry, payload, encKey, macKey).Success? && |other| >= 64 && other != payload
    ensures var front, front' := payload[..|payload| - 64], other[..|other| - 64];
            var tag, tag', key := payload[|payload| - 64..], other[|other| - 64..], cry.hash(macKey)[..16];
            && (tag' == tag ==> front' != front)
            && (tag' == tag ==>
                  (Unsealed(cry, other, encKey, macKey) != Failure(BadMac)
                   <==> cry.hmac(key, front') == cry.hmac(key, front)))
            && (front' == front ==> Unsealed(cry, other, encKey, macKey) == Failure(BadMac))
  {
    assert payload == payload[..|payload| - 64] + payload[|payload| - 64..];
    assert other == other[..|other| - 64] + other[|other| - 64..];
  }

  /** The program panics on exactly the payloads of 64 to 79 bytes that carry a valid tag; no envelope is one. */
  lemma PanicsExactly(cry: Crypto, payload: seq<byte>, encKey: seq<byte>, macKey: seq<byte>)
    requires Sized(cry)
    ensures Unsealed(cry, payload, encKey, macKey) == Failure(Panic)
       <==> 64 <= |payload| < 80 && payload[|payload| - 64..] == Tag(cry, macKey, payload[..|payload| - 64])
    ensures forall data, encKey', macKey', iv | |iv| == AES_BLOCK
            && payload == Enveloped(cry, data, encKey', macKey', iv) ::
              Unsealed(cry, payload, encKey, macKey) != Failure(Panic)
  {
    forall data, encKey', macKey', iv | |iv| == AES_BLOCK && payload == Enveloped(cry, data, encKey', macKey', iv)
      ensures |payload| >= 80
    {
      EnvelopeParts(cry, data, encKey', macKey', iv);
    }
  }
}
