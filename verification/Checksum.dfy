/**
 get_checksum, the Internet checksum of section 1 of RFC 1071, with the 32-bit
 accumulator and the two folds of the source.  Words are read in memory order,
 so every statement holds for either byte order.
 */
module Checksum {

  type Byte = x: int | 0 <= x < 256

  const WORD := 0x1_0000
  const UINT32 := 0x1_0000_0000

  /** The most bytes whose sum cannot wrap the accumulator. */
  const MAX_BYTES := 131074

  function Word(first: Byte, second: Byte, bigEndian: bool): (w: nat)
    ensures w < WORD
  {
    if bigEndian then 256 * first + second else first + 256 * second
  }

  /** The sum of the 16-bit words; an odd last byte is padded with zero. */
  function Sum(bytes: seq<Byte>, bigEndian: bool): nat {
    if bytes == [] then 0
    else if |bytes| == 1 then Word(bytes[0], 0, bigEndian)
    else Word(bytes[0], bytes[1], bigEndian) + Sum(bytes[2..], bigEndian)
  }

  /** The two folds of the source. */
  function Fold(sum: nat): nat {
    var once := sum / WORD + sum % WORD;
    (once + once / WORD) % WORD
  }

  function Checksum(bytes: seq<Byte>, bigEndian: bool): (c: nat)
    ensures c < WORD
  {
    WORD - 1 - Fold(Sum(bytes, bigEndian))
  }

  lemma {:induction false} SumFits(bytes: seq<Byte>, bigEndian: bool)
    ensures Sum(bytes, bigEndian) <= (|bytes| + 1) / 2 * (WORD - 1)
  {
    if |bytes| >= 2 { SumFits(bytes[2..], bigEndian); }
  }

  /** Two folds reach the one's complement residue of any 32-bit sum. */
  lemma FoldIsResidue(sum: nat) returns (q: nat)
    requires sum < UINT32
    ensures sum == Fold(sum) + (WORD - 1) * q
    ensures Fold(sum) < WORD && (Fold(sum) == 0 <==> sum == 0)
  {
    var once := sum / WORD + sum % WORD;
    q := sum / WORD + once / WORD;
  }

  /** uint32_t addition of a word. */
  function Add32(sum: nat, word: nat): (r: nat)
    requires sum < UINT32 && word < WORD
    ensures r < UINT32
  {
    if sum + word < UINT32 then sum + word else sum + word - UINT32
  }

  /** The accumulation loop: within MAX_BYTES bytes no addition wraps. */
  method Accumulate(bytes: seq<Byte>, bigEndian: bool) returns (sum: nat)
    ensures sum < UINT32
    ensures |bytes| <= MAX_BYTES ==> sum == Sum(bytes, bigEndian)
  {
    var at := 0;
    sum := 0;
    SumFits(bytes, bigEndian);
    assert |bytes| <= MAX_BYTES ==> (|bytes| + 1) / 2 <= 65537;
    while |bytes| - at > 1
      invariant 0 <= at <= |bytes| && sum < UINT32
      invariant |bytes| <= MAX_BYTES ==> sum + Sum(bytes[at..], bigEndian) == Sum(bytes, bigEndian) < UINT32
    {
      assert bytes[at..][2..] == bytes[at + 2..];
      sum := Add32(sum, Word(bytes[at], bytes[at + 1], bigEndian));
      at := at + 2;
    }
    if at < |bytes| {
      sum := Add32(sum, Word(bytes[at], 0, bigEndian));
    }
  }

  lemma OnceFolded(sum: nat)
    requires sum < UINT32
    ensures sum / WORD + sum % WORD < 2 * WORD && (sum / WORD + sum % WORD) / WORD <= 1
  {
  }

  /** get_checksum */
  method GetChecksum(bytes: seq<Byte>, bigEndian: bool) returns (c: nat)
    ensures |bytes| <= MAX_BYTES ==> c == Checksum(bytes, bigEndian)
  {
    var sum := Accumulate(bytes, bigEndian);
    OnceFolded(sum);
    sum := sum / WORD + sum % WORD;
    sum := Add32(sum, sum / WORD);
    c := WORD - 1 - sum % WORD;
  }

  /** `stored` is `bytes` with the word at `at` replaced by `value`, as the packet's checksum field is. */
  predicate Stores(bytes: seq<Byte>, at: nat, value: nat, stored: seq<Byte>, bigEndian: bool) {
    && at + 1 < |bytes| == |stored|
    && Word(stored[at], stored[at + 1], bigEndian) == value
    && stored[..at] == bytes[..at] && stored[at + 2..] == bytes[at + 2..]
  }

  /** Filling a zero word at an even offset adds its value to the sum. */
  lemma {:induction false} StoringAdds(bytes: seq<Byte>, at: nat, value: nat, stored: seq<Byte>, bigEndian: bool)
    requires Stores(bytes, at, value, stored, bigEndian) && at % 2 == 0
    requires bytes[at] == 0 && bytes[at + 1] == 0
    ensures Sum(stored, bigEndian) == Sum(bytes, bigEndian) + value
    decreases at
  {
    if at > 0 {
      assert stored[0] == stored[..at][0] == bytes[..at][0] == bytes[0];
      assert stored[1] == stored[..at][1] == bytes[..at][1] == bytes[1];
      assert stored[2..][..at - 2] == stored[..at][2..] && bytes[2..][..at - 2] == bytes[..at][2..];
      assert stored[2..][at..] == stored[at + 2..] && bytes[2..][at..] == bytes[at + 2..];
      StoringAdds(bytes[2..], at - 2, value, stored[2..], bigEndian);
    }
  }

  /** A packet sent with its own checksum in its zeroed checksum field has checksum zero. */
  lemma StoredChecksumVerifies(bytes: seq<Byte>, at: nat, stored: seq<Byte>, bigEndian: bool)
    requires |bytes| <= MAX_BYTES && at % 2 == 0 && at + 1 < |bytes| && bytes[at] == 0 && bytes[at + 1] == 0
    requires Stores(bytes, at, Checksum(bytes, bigEndian), stored, bigEndian)
    ensures Checksum(stored, bigEndian) == 0
  {
    SumIsWord32(bytes, bigEndian);
    SumIsWord32(stored, bigEndian);
    StoringAdds(bytes, at, Checksum(bytes, bigEndian), stored, bigEndian);
    ComplementFolds(Sum(bytes, bigEndian), Checksum(bytes, bigEndian));
  }

  lemma SumIsWord32(bytes: seq<Byte>, bigEndian: bool)
    requires |bytes| <= MAX_BYTES
    ensures Sum(bytes, bigEndian) < UINT32
  {
    SumFits(bytes, bigEndian);
    assert (|bytes| + 1) / 2 <= 65537;
  }

  /** Adding the complement of a sum's residue makes the residue all ones. */
  lemma ComplementFolds(sum: nat, complement: nat)
    requires sum + complement < UINT32 && complement == WORD - 1 - Fold(sum)
    ensures Fold(sum + complement) == WORD - 1
  {
    var q := FoldIsResidue(sum);
    var r := FoldIsResidue(sum + complement);
    Difference(sum, complement, Fold(sum), Fold(sum + complement), q, r);
  }

  lemma Difference(sum: nat, complement: nat, f: nat, g: nat, q: nat, r: nat)
    requires sum == f + (WORD - 1) * q && sum + complement == g + (WORD - 1) * r && complement == WORD - 1 - f
    requires f < WORD && g < WORD && (g == 0 <==> sum + complement == 0) && (f == 0 <==> sum == 0)
    ensures g == WORD - 1
  {
    MultipleInRange(g, q + 1 - r);
  }

  /** The only positive multiple of 65535 below 65536 is 65535 itself. */
  lemma MultipleInRange(f: int, k: int)
    requires 0 < f < WORD && f == (WORD - 1) * k
    ensures f == WORD - 1
  {
  }

  /** Every zeroed checksum field can be filled. */
  lemma StoredBytes(value: nat, bigEndian: bool) returns (first: Byte, second: Byte)
    requires value < WORD
    ensures Word(first, second, bigEndian) == value
  {
    if bigEndian {
      first, second := value / 256, value % 256;
    } else {
      first, second := value % 256, value / 256;
    }
  }
}
