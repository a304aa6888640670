/**
 * Field encryption: PKCS#7 padding (section 6.3 of RFC 5652) and the two-layer AES-256-CBC scheme
 * (AES as in FIPS 197, CBC as in section 6.2 of NIST SP 800-38A) with base64 text between the layers.
 * The block cipher, base64 (section 4 of RFC 4648) and the string/byte conversions are parameters;
 * the properties they are trusted to have are stated once, in `Sound`.
 */
module Encryption {
  import opened Wrappers

  newtype byte = x: int | 0 <= x < 256

  /** `aes.BlockSize`. */
  const BlockSize: nat := 16
  /** AES-256 key length. */
  const KeySize: nat := 32

  datatype CryptoError =
    | BadBase64           // base64 decoding failed
    | BadKeyLength        // "encryption key must be 32 bytes"
    | NotFullBlocks       // CryptBlocks on a partial block (a panic in the source)
    | EmptyInput          // "input data is empty"
    | InvalidPadding      // "invalid padding"

  // ---------------------------------------------------------------- PKCS#7

  /** `pkcs7Padding`: append p = bs - len % bs bytes, each holding `byte(p)`. */
  function Pkcs7Padding(data: seq<byte>, blockSize: nat): (r: seq<byte>)
    requires 0 < blockSize
    ensures |r| % blockSize == 0
    ensures |data| < |r| <= |data| + blockSize
    ensures r[..|data|] == data
  {
    var p := blockSize - |data| % blockSize;
    PadToBlock(|data|, blockSize);
    data + seq(p, _ => (p % 256) as byte)
  }

  lemma {:induction false} MulAtLeast(k: nat, b: nat)
    requires 1 <= k
    ensures k * b >= b
  {
    if k > 1 {
      MulAtLeast(k - 1, b);
      assert k * b == (k - 1) * b + b;
    }
  }
  lemma ModUnique(x: int, b: int, q: int, m: int)
    requires 0 < b && 0 <= m < b && x == q * b + m
    ensures x % b == m
  {
    var q0, m0 := x / b, x % b;
    assert x == q0 * b + m0;
    if q0 > q {
      assert (q0 - q) * b == m - m0;
      MulAtLeast(q0 - q, b);
    } else if q0 < q {
      assert (q - q0) * b == m0 - m;
      MulAtLeast(q - q0, b);
    }
  }
  lemma PadToBlock(n: nat, b: nat)
      requires 0 < b
      ensures 0 < b - n % b <= b
      ensures (n + (b - n % b)) % b == 0
    {
      var q, m := n / b, n % b;
      assert n == q * b + m;
      assert n + (b - m) == (q + 1) * b + 0;
      ModUnique(n + (b - m), b, q + 1, 0);
    }

  /** `pkcs7Unpadding`: drop as many bytes as the last byte says, without looking at them. */
  function Pkcs7Unpadding(data: seq<byte>): (r: Result<seq<byte>, CryptoError>)
    ensures data == [] ==> r == Err(EmptyInput)
    ensures data != [] && data[|data| - 1] as int > |data| ==> r == Err(InvalidPadding)
    ensures r.Ok? ==> r.value <= data
    ensures data != [] && data[|data| - 1] as int <= |data| ==> r == Ok(data[..|data| - data[|data| - 1] as int])
  {
    if |data| == 0 then Err(EmptyInput)
    else
      var unpadding := data[|data| - 1] as int;
      if unpadding > |data| then Err(InvalidPadding)
      else Ok(data[..|data| - unpadding])
  }

  /** Removing the padding that was added gives the data back, for every block size a byte can count. */
  lemma UnpadPad(data: seq<byte>, blockSize: nat)
    requires 0 < blockSize <= 255
    ensures Pkcs7Unpadding(Pkcs7Padding(data, blockSize)) == Ok(data)
  {
    var r := Pkcs7Padding(data, blockSize);
    var p := blockSize - |data| % blockSize;
    assert r[|r| - 1] as int == p;
    assert r[..|r| - p] == data;
  }

  /** Every padding length is between 1 and the block size, and every padding byte holds that length. */
  lemma PaddingBytes(data: seq<byte>, blockSize: nat)
    requires 0 < blockSize <= 255
    ensures var r := Pkcs7Padding(data, blockSize);
            1 <= |r| - |data| <= blockSize && forall k :: |data| <= k < |r| ==> r[k] as int == |r| - |data|
  {
  }

  /** A final byte of zero passes unchecked and removes nothing. */
  lemma UnpadZeroLastByte(data: seq<byte>)
    requires data != [] && data[|data| - 1] == 0
    ensures Pkcs7Unpadding(data) == Ok(data)
  {
    assert data[..|data| - 0] == data;
  }

  /** The padding bytes themselves are never checked: any last byte within the length is accepted. */
  lemma UnpadIgnoresPaddingContent()
    ensures Pkcs7Unpadding([7, 9, 2]) == Ok([7])
  {
    assert [7, 9, 2][..1] == [7 as byte];
  }

  // ---------------------------------------------------------------- primitives

  /**
   * The library functions the scheme is built from: base64 `StdEncoding` encode and decode,
   * `[]byte(s)` and `string(b)`, and AES-CBC encryption and decryption of whole blocks.
   */
  datatype Primitives = Primitives(
    encode: seq<byte> -> string,
    decode: string -> Option<seq<byte>>,
    bytes: string -> seq<byte>,
    text: seq<byte> -> string,
    encryptCBC: (seq<byte>, seq<byte>, seq<byte>) -> seq<byte>,
    decryptCBC: (seq<byte>, seq<byte>, seq<byte>) -> seq<byte>)

  /**
   * What the scheme relies on: base64 decoding inverts encoding, a Go string survives the trip through
   * bytes, CBC output has the length of its input, and CBC decryption with the same key and IV inverts
   * encryption of whole blocks.
   */
  ghost predicate Sound(p: Primitives) {
    (forall b :: p.decode(p.encode(b)) == Some(b)) &&
    (forall s :: p.text(p.bytes(s)) == s) &&
    (forall k, iv, d :: |p.encryptCBC(k, iv, d)| == |d|) &&
    (forall k, iv, d :: |p.decryptCBC(k, iv, d)| == |d|) &&
    (forall k, iv, d :: |k| == KeySize && |iv| == BlockSize && |d| % BlockSize == 0 ==>
       p.decryptCBC(k, iv, p.encryptCBC(k, iv, d)) == d)
  }

  /** The two configured keys, as base64 text. */
  datatype Keys = Keys(key1: string, key2: string)

  /** `getCipher`: the key must decode from base64 to exactly 32 bytes. */
  function GetCipher(p: Primitives, key: string): (r: Result<seq<byte>, CryptoError>)
    ensures r.Ok? <==> p.decode(key).Some? && |p.decode(key).value| == KeySize
    ensures r.Ok? ==> r.value == p.decode(key).value
  {
    match p.decode(key)
    case None => Err(BadBase64)
    case Some(k) => if |k| != KeySize then Err(BadKeyLength) else Ok(k)
  }

  /** The IV of a layer: the first block of its own decoded key. */
  function IV(key: seq<byte>): seq<byte>
    requires |key| == KeySize
  {
    key[..BlockSize]
  }

  /** One encryption layer: pad, CBC-encrypt with the key and its IV, base64-encode. */
  function SealLayer(p: Primitives, key: seq<byte>, plain: string): string
    requires |key| == KeySize
  {
    p.encode(p.encryptCBC(key, IV(key), Pkcs7Padding(p.bytes(plain), BlockSize)))
  }

  /** One decryption layer: base64-decode, CBC-decrypt whole blocks, unpad. */
  function OpenLayer(p: Primitives, key: seq<byte>, sealed: string): Result<string, CryptoError>
    requires |key| == KeySize
  {
    match p.decode(sealed)
    case None => Err(BadBase64)
    case Some(c) =>
      if |c| % BlockSize != 0 then Err(NotFullBlocks)
      else
        match Pkcs7Unpadding(p.decryptCBC(key, IV(key), c))
        case Err(e) => Err(e)
        case Ok(d) => Ok(p.text(d))
  }

  /** `Encrypt`: the layer under key 1, then the layer under key 2 over its base64 text. */
  function Encrypt(p: Primitives, keys: Keys, plaintext: string): (r: Result<string, CryptoError>)
    ensures r.Ok? <==> GetCipher(p, keys.key1).Ok? && GetCipher(p, keys.key2).Ok?
  {
    match GetCipher(p, keys.key1)
    case Err(e) => Err(e)
    case Ok(k1) =>
      var inner := SealLayer(p, k1, plaintext);
      match GetCipher(p, keys.key2)
      case Err(e) => Err(e)
      case Ok(k2) => Ok(SealLayer(p, k2, inner))
  }

  /**
   * `Decrypt`: the outer text is decoded before key 2 is checked; then the layer under key 2 and the
   * layer under key 1 are opened in that order.
   */
  function Decrypt(p: Primitives, keys: Keys, ciphertext: string): (r: Result<string, CryptoError>)
    ensures p.decode(ciphertext).None? ==> r == Err(BadBase64)
    ensures r.Ok? ==> GetCipher(p, keys.key1).Ok? && GetCipher(p, keys.key2).Ok?
  {
    if p.decode(ciphertext).None? then Err(BadBase64)
    else
      match GetCipher(p, keys.key2)
      case Err(e) => Err(e)
      case Ok(k2) =>
        match OpenLayer(p, k2, ciphertext)
        case Err(e) => Err(e)
        case Ok(inner) =>
          match GetCipher(p, keys.key1)
          case Err(e) => if p.decode(inner).None? then Err(BadBase64) else Err(e)
          case Ok(k1) => OpenLayer(p, k1, inner)
  }

  lemma OpenSealLayer(p: Primitives, key: seq<byte>, plain: string)
    requires Sound(p) && |key| == KeySize
    ensures OpenLayer(p, key, SealLayer(p, key, plain)) == Ok(plain)
  {
    var padded := Pkcs7Padding(p.bytes(plain), BlockSize);
    var c := p.encryptCBC(key, IV(key), padded);
    assert p.decode(p.encode(c)) == Some(c);
    assert |c| == |padded|;
    assert p.decryptCBC(key, IV(key), c) == padded;
    UnpadPad(p.bytes(plain), BlockSize);
    assert p.text(p.bytes(plain)) == plain;
  }

  /** Given sound primitives, decrypting what `Encrypt` produced gives the plaintext back. */
  lemma DecryptEncrypt(p: Primitives, keys: Keys, plaintext: string)
    requires Sound(p) && Encrypt(p, keys, plaintext).Ok?
    ensures Decrypt(p, keys, Encrypt(p, keys, plaintext).value) == Ok(plaintext)
  {
    var k1 := GetCipher(p, keys.key1).value;
    var k2 := GetCipher(p, keys.key2).value;
    var inner := SealLayer(p, k1, plaintext);
    var outer := SealLayer(p, k2, inner);
    OpenSealLayer(p, k2, inner);
    OpenSealLayer(p, k1, plaintext);
    assert p.decode(outer).Some?;
  }
}
