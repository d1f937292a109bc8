/** Password hashing. The keyed hash is a parameter; key derivation follows PBKDF2,
    section 5.2 of RFC 8018. */
module Credentials {
  import opened Errors
  import opened Arithmetic
  import opened Bits

  type Bytes = seq<byte>

  /** The pseudorandom function and the length of its output. */
  datatype Prf = Prf(size: nat, sum: (Bytes, Bytes) -> Bytes) {
    ghost predicate Valid() {
      size > 0 && forall key, text :: |sum(key, text)| == size
    }
  }

  // ---------- the standard's definition ----------

  lemma NextDigit(i: nat, weight: nat)
    requires weight == 0x100 || weight == 0x1_0000 || weight == 0x100_0000
    ensures i / weight % 0x100 * weight + i % weight == i % (weight * 0x100)
  {
    if weight == 0x100 {
    } else if weight == 0x1_0000 {
    }
  }

  /** A block index as four bytes, the most significant first; larger ones wrap around. */
  function Int32(i: nat): (r: Bytes)
    ensures |r| == 4
    ensures r[0] as int * 0x100_0000 + r[1] as int * 0x1_0000 + r[2] as int * 0x100 + r[3] as int == i % 0x1_0000_0000
  {
    NextDigit(i, 0x100);
    NextDigit(i, 0x1_0000);
    NextDigit(i, 0x100_0000);
    [(i / 0x100_0000 % 0x100) as byte, (i / 0x1_0000 % 0x100) as byte, (i / 0x100 % 0x100) as byte, (i % 0x100) as byte]
  }

  function Xor(a: Bytes, b: Bytes): (r: Bytes)
    requires |a| == |b|
    ensures |r| == |a|
  {
    seq(|a|, k requires 0 <= k < |a| => XorByte(a[k], b[k]))
  }

  /** The `j`-th iterate of block `i`. */
  ghost function U(f: Prf, password: Bytes, salt: Bytes, i: nat, j: nat): (r: Bytes)
    requires f.Valid() && j >= 1
    ensures |r| == f.size
  {
    f.sum(password, if j == 1 then salt + Int32(i) else U(f, password, salt, i, j - 1))
  }

  /** Block `i`: the exclusive or of its first `c` iterates. */
  ghost function T(f: Prf, password: Bytes, salt: Bytes, c: nat, i: nat): (r: Bytes)
    requires f.Valid() && c >= 1
    ensures |r| == f.size
  {
    if c == 1 then U(f, password, salt, i, 1)
    else Xor(T(f, password, salt, c - 1, i), U(f, password, salt, i, c))
  }

  /** The first `n` blocks one after the other. */
  ghost function Blocks(f: Prf, password: Bytes, salt: Bytes, c: nat, n: nat): (r: Bytes)
    requires f.Valid() && c >= 1
    ensures |r| == n * f.size
  {
    if n == 0 then []
    else
      assert n * f.size == (n - 1) * f.size + f.size;
      Blocks(f, password, salt, c, n - 1) + T(f, password, salt, c, n)
  }

  function BlockCount(size: nat, keyLen: nat): (n: nat)
    requires size > 0
    ensures n * size >= keyLen
  {
    (keyLen + size - 1) / size
  }

  /** The derived key; an iteration count below one counts as one. */
  ghost function Derived(f: Prf, password: Bytes, salt: Bytes, iterations: int, keyLen: nat): (r: Bytes)
    requires f.Valid()
    ensures |r| == keyLen
  {
    Blocks(f, password, salt, if iterations < 1 then 1 else iterations, BlockCount(f.size, keyLen))[..keyLen]
  }

  lemma {:induction false} BlocksArePrefixes(f: Prf, password: Bytes, salt: Bytes, c: nat, m: nat, n: nat)
    requires f.Valid() && c >= 1 && m <= n
    ensures Blocks(f, password, salt, c, m) <= Blocks(f, password, salt, c, n)
  {
    if m < n {
      BlocksArePrefixes(f, password, salt, c, m, n - 1);
    }
  }

  /** A shorter key is a prefix of a longer one. */
  lemma ShorterKeysArePrefixes(f: Prf, password: Bytes, salt: Bytes, iterations: int, short: nat, long: nat)
    requires f.Valid() && short <= long
    ensures Derived(f, password, salt, iterations, short) == Derived(f, password, salt, iterations, long)[..short]
  {
    var c := if iterations < 1 then 1 else iterations;
    MoreBlocks(f.size, short, long);
    BlocksArePrefixes(f, password, salt, c, BlockCount(f.size, short), BlockCount(f.size, long));
  }

  lemma MoreBlocks(size: nat, short: nat, long: nat)
    requires size > 0 && short <= long
    ensures BlockCount(size, short) <= BlockCount(size, long)
  {
    var a := short + size - 1;
    assert size * (a / size) <= a;
    QuotientAtLeast(a / size, size, long + size - 1);
  }

  /** A key no longer than one block is cut from the first one: after one round that is
      the keyed hash of the salt with the index 1 behind it, after two rounds also the
      hash of this hash, by exclusive or. */
  lemma OneBlock(f: Prf, password: Bytes, salt: Bytes, iterations: int, keyLen: nat)
    requires f.Valid() && keyLen <= f.size
    ensures var first := f.sum(password, salt + [0, 0, 0, 1]); var second := f.sum(password, first);
            var key := Derived(f, password, salt, iterations, keyLen);
            && |first| == |second| == f.size
            && (iterations <= 1 ==> key == first[..keyLen])
            && (iterations == 2 ==> forall k :: 0 <= k < keyLen ==> key[k] == XorByte(first[k], second[k]))
  {
    hide XorByte;
    var c := if iterations < 1 then 1 else iterations;
    assert BlockCount(f.size, keyLen) == if keyLen == 0 then 0 else 1 by {
      SingleBlock(f.size, keyLen);
    }
    assert Int32(1) == [0, 0, 0, 1];
    assert Blocks(f, password, salt, c, 1) == T(f, password, salt, c, 1) by {
      assert Blocks(f, password, salt, c, 0) == [];
    }
    Iterates(f, password, salt, 1, 1);
  }

  lemma SingleBlock(size: nat, keyLen: nat)
    requires 0 < size && keyLen <= size
    ensures BlockCount(size, keyLen) == if keyLen == 0 then 0 else 1
  {
    if keyLen > 0 {
      QuotientAtLeast(1, size, keyLen + size - 1);
      QuotientAtMost(1, size, keyLen + size - 1);
    } else {
      QuotientAtMost(0, size, keyLen + size - 1);
    }
  }

  /** Each whole block of a key follows the ones before it. */
  lemma KeysAreBlocks(f: Prf, password: Bytes, salt: Bytes, iterations: int, keyLen: nat, i: nat)
    requires f.Valid() && 1 <= i && i * f.size <= keyLen
    ensures var key := Derived(f, password, salt, iterations, keyLen);
            && 0 <= (i - 1) * f.size <= i * f.size
            && key[..i * f.size] == key[..(i - 1) * f.size]
                 + T(f, password, salt, if iterations < 1 then 1 else iterations, i)
  {
    hide T;
    var c := if iterations < 1 then 1 else iterations;
    var n := BlockCount(f.size, keyLen);
    QuotientAtLeast(i, f.size, keyLen + f.size - 1);
    assert i * f.size == (i - 1) * f.size + f.size;
    BlocksArePrefixes(f, password, salt, c, i - 1, n);
    BlocksArePrefixes(f, password, salt, c, i, n);
  }

  // ---------- the derivation loops ----------

  /** Block after block is computed and appended; the last one is cut. */
  method DeriveKey(f: Prf, password: Bytes, salt: Bytes, iterations: int, keyLen: nat) returns (key: Bytes)
    requires f.Valid()
    ensures key == Derived(f, password, salt, iterations, keyLen)
    ensures var first := f.sum(password, salt + [0, 0, 0, 1]); var second := f.sum(password, first);
            && |first| == |second| == f.size
            && (iterations <= 1 && keyLen <= f.size ==> key == first[..keyLen])
            && (iterations == 2 && keyLen <= f.size ==>
                  forall k :: 0 <= k < keyLen ==> key[k] == XorByte(first[k], second[k]))
  {
    hide U, T, XorByte, Int32;
    if keyLen <= f.size {
      OneBlock(f, password, salt, iterations, keyLen);
    }
    var rounds := if iterations < 1 then 1 else iterations;
    var blocks := BlockCount(f.size, keyLen);
    var out := new byte[blocks * f.size];
    for index := 1 to blocks + 1
      invariant 0 <= (index - 1) * f.size <= out.Length
      invariant out[..(index - 1) * f.size] == Blocks(f, password, salt, rounds, index - 1)
    {
      var result := DeriveBlock(f, password, salt, rounds, index);
      Append(out, (index - 1) * f.size, result, blocks, index, f.size);
    }
    key := out[..keyLen];
  }

  /** The inner loops: `current` is overwritten by each iterate and `result` takes
      it in byte by byte. */
  method DeriveBlock(f: Prf, password: Bytes, salt: Bytes, rounds: nat, index: nat) returns (result: array<byte>)
    requires f.Valid() && rounds >= 1
    ensures fresh(result) && result[..] == T(f, password, salt, rounds, index)
  {
    hide Prf.Valid, U, T, Xor, Int32;
    Iterates(f, password, salt, index, 1);
    var first := f.sum(password, salt + Int32(index));
    SumSize(f, password, salt + Int32(index));
    var current := new byte[f.size];
    result := new byte[f.size];
    Overwrite(current, first);
    Overwrite(result, first);
    for round := 1 to rounds
      invariant current[..] == U(f, password, salt, index, round)
      invariant result[..] == T(f, password, salt, round, index)
    {
      Iterates(f, password, salt, index, round);
      var next := f.sum(password, current[..]);
      SumSize(f, password, current[..]);
      Overwrite(current, next);
      XorInto(result, current);
    }
  }

  lemma Iterates(f: Prf, password: Bytes, salt: Bytes, i: nat, j: nat)
    requires f.Valid() && j >= 1
    ensures U(f, password, salt, i, 1) == f.sum(password, salt + Int32(i)) == T(f, password, salt, 1, i)
    ensures U(f, password, salt, i, j + 1) == f.sum(password, U(f, password, salt, i, j))
    ensures T(f, password, salt, j + 1, i) == Xor(T(f, password, salt, j, i), U(f, password, salt, i, j + 1))
  {
  }

  method Overwrite(buffer: array<byte>, data: Bytes)
    requires buffer.Length == |data|
    modifies buffer
    ensures buffer[..] == data
  {
    forall k | 0 <= k < |data| {
      buffer[k] := data[k];
    }
  }

  lemma SumSize(f: Prf, key: Bytes, text: Bytes)
    requires f.Valid()
    ensures |f.sum(key, text)| == f.size
  {
  }

  method XorInto(result: array<byte>, current: array<byte>)
    requires result.Length == current.Length && result != current
    modifies result
    ensures result[..] == Xor(old(result[..]), current[..])
  {
    for i := 0 to result.Length
      invariant forall k :: 0 <= k < i ==> result[k] == XorByte(old(result[k]), current[k])
      invariant forall k :: i <= k < result.Length ==> result[k] == old(result[k])
    {
      result[i] := XorByte(result[i], current[i]);
    }
  }

  /** Appends a block behind the blocks already there. */
  method Append(out: array<byte>, filled: nat, result: array<byte>, ghost blocks: nat, ghost index: nat,
                ghost size: nat)
    requires 1 <= index <= blocks && out.Length == blocks * size && filled == (index - 1) * size
    requires result.Length == size
    requires out != result
    modifies out
    ensures index * size <= out.Length && out[..index * size] == old(out[..filled]) + result[..]
  {
    assert index * size == filled + size;
    assert (blocks - index) * size >= 0;
    for k := 0 to result.Length
      invariant out[..filled + k] == old(out[..filled]) + result[..k]
    {
      out[filled + k] := result[k];
    }
  }

  // ---------- hexadecimal text ----------

  function Digit(n: nat): char
    requires n < 16
  {
    if n < 10 then '0' + n as char else 'a' + (n - 10) as char
  }

  function ValueOf(c: char): (v: Option<nat>)
    ensures v.Some? ==> v.value < 16
  {
    if '0' <= c <= '9' then Some((c - '0') as nat)
    else if 'a' <= c <= 'f' then Some((c - 'a') as nat + 10)
    else if 'A' <= c <= 'F' then Some((c - 'A') as nat + 10)
    else None
  }

  function EncodeHex(data: Bytes): (text: string)
    ensures |text| == 2 * |data|
  {
    if data == [] then []
    else [Digit(data[0] as nat / 16), Digit(data[0] as nat % 16)] + EncodeHex(data[1..])
  }

  /** Accepts digits of either case; nothing else and no odd length. */
  function DecodeHex(text: string): Option<Bytes> {
    if text == [] then Some([])
    else if |text| == 1 then None
    else
      match (ValueOf(text[0]), ValueOf(text[1]), DecodeHex(text[2..]))
      case (Some(high), Some(low), Some(rest)) => Some([(high * 16 + low) as byte] + rest)
      case _ => None
  }

  function LowerChar(c: char): char {
    if 'A' <= c <= 'Z' then c - 'A' + 'a' else c
  }

  function Lower(text: string): string {
    seq(|text|, i requires 0 <= i < |text| => LowerChar(text[i]))
  }

  lemma DigitsHaveTheirValue(n: nat, c: char)
    ensures n < 16 ==> ValueOf(Digit(n)) == Some(n)
    ensures ValueOf(c).Some? ==> Digit(ValueOf(c).value) == LowerChar(c)
  {
  }

  lemma {:induction false} DecodingUndoesEncoding(data: Bytes)
    ensures DecodeHex(EncodeHex(data)) == Some(data)
  {
    hide Digit, ValueOf;
    if data != [] {
      var text := EncodeHex(data);
      assert text[2..] == EncodeHex(data[1..]);
      DecodingUndoesEncoding(data[1..]);
      DigitsHaveTheirValue(data[0] as nat / 16, ' ');
      DigitsHaveTheirValue(data[0] as nat % 16, ' ');
      assert text[0] == Digit(data[0] as nat / 16) && text[1] == Digit(data[0] as nat % 16);
      assert data == [data[0]] + data[1..];
    }
  }

  /** Two digits a byte, the higher one first. */
  lemma {:induction false} EncodingIsPositional(data: Bytes, k: nat)
    requires k < |data|
    ensures var digits, text := "0123456789abcdef", EncodeHex(data);
            text[2 * k] == digits[data[k] / 16] && text[2 * k + 1] == digits[data[k] % 16]
  {
    var rest := EncodeHex(data[1..]);
    assert data == [data[0]] + data[1..];
    if |data| > 1 {
      EncodingIsPositional(data[1..], if k > 0 then k - 1 else 0);
    }
    DigitsOfAByte(data[0]);
  }

  lemma DigitsOfAByte(b: byte)
    ensures Digit(b as nat / 16) == "0123456789abcdef"[b / 16] && Digit(b as nat % 16) == "0123456789abcdef"[b % 16]
  {
  }

  /** Text that decodes is, up to case, the encoding of what it decodes to. */
  lemma {:induction false} EncodingUndoesDecoding(text: string)
    requires DecodeHex(text).Some?
    ensures EncodeHex(DecodeHex(text).value) == Lower(text)
  {
    hide Digit, ValueOf, LowerChar;
    if text != [] {
      EncodingUndoesDecoding(text[2..]);
      var data := DecodeHex(text).value;
      assert data[1..] == DecodeHex(text[2..]).value;
      DigitsHaveTheirValue(0, text[0]);
      DigitsHaveTheirValue(0, text[1]);
      assert Lower(text) == [LowerChar(text[0]), LowerChar(text[1])] + Lower(text[2..]);
    }
  }

  predicate IsHexDigit(c: char) {
    '0' <= c <= '9' || 'a' <= c <= 'f' || 'A' <= c <= 'F'
  }

  /** Exactly texts of even length made of digits of either case can be decoded. */
  lemma {:induction false} DecodableTexts(text: string)
    ensures DecodeHex(text).Some? <==> |text| % 2 == 0 && forall i :: 0 <= i < |text| ==> IsHexDigit(text[i])
  {
    hide ValueOf, IsHexDigit;
    if |text| >= 2 {
      var rest := text[2..];
      DecodableTexts(rest);
      DigitCharacters(text[0]);
      DigitCharacters(text[1]);
      assert |rest| % 2 == |text| % 2;
      assert forall i :: 2 <= i < |text| ==> text[i] == rest[i - 2];
      assert forall i :: 0 <= i < |rest| ==> rest[i] == text[i + 2];
    }
  }

  lemma DigitCharacters(c: char)
    ensures ValueOf(c).Some? <==> IsHexDigit(c)
  {
  }

  // ---------- stored credentials ----------

  const KEY_BYTES := 32

  datatype Credential = Credential(hash: string, salt: string, iterations: int)

  /** The credential of a password under a salt. */
  ghost function Stored(f: Prf, password: Bytes, salt: Bytes, iterations: int): Credential
    requires f.Valid()
  {
    Credential(EncodeHex(Derived(f, password, salt, iterations, KEY_BYTES)), EncodeHex(salt), iterations)
  }

  const DEFAULT_ITERATIONS := 120000

  function NewHasher(f: Prf, iterations: int): (h: Hasher)
    ensures h.f == f && h.iterations >= 1 && h.iterations == (if iterations >= 1 then iterations else 120000)
  {
    Hasher(f, if iterations <= 0 then DEFAULT_ITERATIONS else iterations)
  }

  ghost function Verdict(f: Prf, default_: int, c: Credential, password: Bytes): Result<()>
    requires f.Valid()
  {
    match (DecodeHex(c.salt), DecodeHex(c.hash))
    case (Some(salt), Some(expected)) =>
      var count := if c.iterations <= 0 then default_ else c.iterations;
      if Derived(f, password, salt, count, |expected|) == expected then Ok(()) else Err(Unauthenticated)
    case _ => Err(Internal)
  }

  datatype Hasher = Hasher(f: Prf, iterations: int) {

    /** The salt is the random input. */
    method Hash(password: Bytes, salt: Bytes) returns (c: Credential)
      requires f.Valid()
      ensures c == Stored(f, password, salt, iterations)
      ensures |c.hash| == 64 && DecodeHex(c.salt) == Some(salt) && c.iterations == iterations
    {
      var derived := DeriveKey(f, password, salt, iterations, KEY_BYTES);
      c := Credential(EncodeHex(derived), EncodeHex(salt), iterations);
      DecodingUndoesEncoding(salt);
    }

    /** Accepts a password exactly when it derives the stored bytes again; unreadable
        material is an internal error. A stored count below one means the default. */
    method Verify(c: Credential, password: Bytes) returns (res: Result<()>)
      requires f.Valid()
      ensures res == Verdict(f, iterations, c, password)
      ensures res == Err(Internal) <==> DecodeHex(c.salt).None? || DecodeHex(c.hash).None?
    {
      var salt := DecodeHex(c.salt);
      if salt.None? {
        return Err(Internal);
      }
      var expected := DecodeHex(c.hash);
      if expected.None? {
        return Err(Internal);
      }
      var count := c.iterations;
      if count <= 0 {
        count := iterations;
      }
      var derived := DeriveKey(f, password, salt.value, count, |expected.value|);
      if derived != expected.value {
        return Err(Unauthenticated);
      }
      res := Ok(());
    }
  }

  /** A password is accepted against what `Hash` stored for another exactly when both
      derive the same key, so always when it is the same password, whatever count
      the verifying hasher is configured with. */
  lemma VerifyAcceptsWhatHashStored(f: Prf, password: Bytes, attempt: Bytes, salt: Bytes, iterations: int,
                                    default_: int)
    requires f.Valid() && iterations >= 1
    ensures var verdict := Verdict(f, default_, Stored(f, password, salt, iterations), attempt);
            && (verdict == Ok(()) <==>
                Derived(f, attempt, salt, iterations, KEY_BYTES) == Derived(f, password, salt, iterations, KEY_BYTES))
            && (verdict.Err? ==> verdict.code == Unauthenticated && attempt != password)
  {
    hide Derived, EncodeHex, DecodeHex;
    DecodingUndoesEncoding(salt);
    DecodingUndoesEncoding(Derived(f, password, salt, iterations, KEY_BYTES));
  }
}
