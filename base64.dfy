/**
 * The hand-written base64 decoder of lib/utils.ts: a 256-entry lookup table
 * filled from the alphabet of section 4 of RFC 4648, an output buffer whose
 * length is three quarters of the input length minus the trailing '=' signs,
 * and a stride-4 loop that writes through a cursor into that buffer.
 *
 * Every value read from the table is below 64 (the table holds alphabet indexes
 * and zeros, and an index past the table gives `undefined`, which the shifts and
 * masks treat as 0). For such operands the expressions of lines 34, 37 and 40
 * combine disjoint bit fields, so each `|` is a sum, each shift a multiplication
 * or division by a power of two, each mask a remainder, and every result fits
 * in a byte; the model writes them that way. A store at or past the end of a
 * Uint8Array is silently dropped; the decoder relies on that for "xx==" quartets.
 */
module Base64 {

  newtype byte = x: int | 0 <= x < 256

  /** A value the lookup table can hold for an alphabet character. */
  type sextet = x: int | 0 <= x < 64

  const Uppercase: string := "ABCDEFGHIJKLMNOPQRSTUVWXYZ"
  const Lowercase: string := "abcdefghijklmnopqrstuvwxyz"
  const Digits: string := "0123456789"

  /** The alphabet of Table 1 in section 4 of RFC 4648 (lib/utils.ts:8), written as its four runs. */
  const Alphabet: string := Uppercase + Lowercase + Digits + "+/"

  /** RFC 4648 value of a character of the alphabet; 64 for any other character. */
  function SextetOf(c: char): int {
    if 'A' <= c <= 'Z' then c as int - 'A' as int
    else if 'a' <= c <= 'z' then c as int - 'a' as int + 26
    else if '0' <= c <= '9' then c as int - '0' as int + 52
    else if c == '+' then 62
    else if c == '/' then 63
    else 64
  }

  /** The character of the alphabet with value `v`. */
  function CharOf(v: sextet): char {
    if v < 26 then ('A' as int + v) as char
    else if v < 52 then ('a' as int + v - 26) as char
    else if v < 62 then ('0' as int + v - 52) as char
    else if v == 62 then '+' else '/'
  }

  lemma UppercaseRun()
    ensures forall v :: 0 <= v < 26 ==> Uppercase[v] == ('A' as int + v) as char
  {
    assert seq(26, i requires 0 <= i < 26 => ('A' as int + i) as char) == Uppercase;
  }

  lemma LowercaseRun()
    ensures forall v :: 0 <= v < 26 ==> Lowercase[v] == ('a' as int + v) as char
  {
    assert seq(26, i requires 0 <= i < 26 => ('a' as int + i) as char) == Lowercase;
  }

  lemma DigitsRun()
    ensures forall v :: 0 <= v < 10 ==> Digits[v] == ('0' as int + v) as char
  {
    assert seq(10, i requires 0 <= i < 10 => ('0' as int + i) as char) == Digits;
  }

  /** The alphabet string is the table CharOf. */
  lemma AlphabetIsTable()
    ensures |Alphabet| == 64
    ensures forall v :: 0 <= v < 64 ==> Alphabet[v] == CharOf(v)
  {
    UppercaseRun();
    LowercaseRun();
    DigitsRun();
  }

  /** SextetOf inverts CharOf, and no alphabet character is the pad '='. */
  lemma SextetOfCharOf(v: sextet)
    ensures SextetOf(CharOf(v)) == v
    ensures CharOf(v) != '='
  {
    var c := CharOf(v);
    if v < 26 {
      assert c as int == 'A' as int + v;
    } else if v < 52 {
      assert c as int == 'a' as int + v - 26;
    } else if v < 62 {
      assert c as int == '0' as int + v - 52;
    }
  }

  /**
   * The table entry for character code `code` after the loop of lib/utils.ts:10-12
   * has run `n` times: the index of the last of the first `n` alphabet characters
   * with that code, or 0 (the Uint8Array's initial value) if there is none.
   */
  function LookupAfter(n: nat, code: int): int
    requires n <= 64
  {
    if n == 0 then 0
    else if Alphabet[n - 1] as int == code then n - 1
    else LookupAfter(n - 1, code)
  }

  /**
   * `lookup[charCode]` once the table is built: the RFC 4648 value of an alphabet
   * character and 0 for every other character, '=' included; also 0 for a code
   * of 256 or more, which reads `undefined`. BuildLookup proves that the loop
   * fills the table this way.
   */
  function Lookup(c: char): sextet {
    if SextetOf(c) < 64 then SextetOf(c) else 0
  }

  lemma {:induction false} LookupAfterIsSextet(n: nat, code: int)
    requires n <= 64 && 0 <= code < 256
    ensures LookupAfter(n, code) == if SextetOf(code as char) < n then SextetOf(code as char) else 0
  {
    if n > 0 {
      AlphabetIsTable();
      if Alphabet[n - 1] as int == code {
        SextetOfCharOf(n - 1);
        assert Alphabet[n - 1] == code as char;
      } else if SextetOf(code as char) == n - 1 {
        SextetCharOf(code as char);
      }
      LookupAfterIsSextet(n - 1, code);
    }
  }

  /** CharOf inverts SextetOf on the alphabet. */
  lemma SextetCharOf(c: char)
    requires SextetOf(c) < 64
    ensures CharOf(SextetOf(c)) == c
  {
  }

  /** Lookup inverts the alphabet. */
  lemma LookupCharOf(v: sextet)
    ensures Lookup(CharOf(v)) == v
    ensures CharOf(v) != '='
  {
    SextetOfCharOf(v);
  }

  /** Every character outside the alphabet reads as 0. */
  lemma LookupOutside(c: char)
    requires forall v :: 0 <= v < 64 ==> Alphabet[v] != c
    ensures Lookup(c) == 0
  {
    AlphabetIsTable();
    AlphabetIndex(c);
  }

  lemma AlphabetIndex(c: char)
    ensures SextetOf(c) < 64 ==> Alphabet[SextetOf(c)] == c
  {
    AlphabetIsTable();
    if SextetOf(c) < 64 {
      SextetCharOf(c);
    }
  }

  /** Every alphabet character reads as its index. */
  lemma LookupAlphabet(v: sextet)
    ensures Lookup(Alphabet[v]) == v
  {
    AlphabetIsTable();
    LookupCharOf(v);
  }

  /** '=' is not in the table and reads as 0. */
  lemma PadLooksUpZero()
    ensures Lookup('=') == 0
  {
  }

  /** Fills the 256-entry table as lib/utils.ts:9-12 does. */
  method BuildLookup() returns (lookup: array<byte>)
    ensures fresh(lookup) && lookup.Length == 256
    ensures forall code :: 0 <= code < 256 ==> lookup[code] as int == Lookup(code as char)
  {
    lookup := new byte[256](_ => 0);
    AlphabetIsTable();
    for i := 0 to |Alphabet|
      invariant forall code :: 0 <= code < 256 ==> lookup[code] as int == LookupAfter(i, code)
    {
      lookup[Alphabet[i] as int] := i as byte;
    }
    forall code | 0 <= code < 256 ensures lookup[code] as int == Lookup(code as char) {
      LookupAfterIsSextet(|Alphabet|, code);
    }
  }

  /**
   * The length of the buffer lib/utils.ts:14-23 allocates: `base64.length * 0.75`,
   * minus one for a trailing '=' and one more when the character before it is '='
   * too. ArrayBuffer truncates a fractional length toward zero, so a negative
   * value above -1 (inputs "=" and "==") gives an empty buffer.
   */
  function BufferLength(s: string): (n: nat)
    ensures |s| % 4 == 0 && |s| > 0 && s[|s| - 1] != '=' ==> n == |s| / 4 * 3
  {
    var whole := |s| * 3 / 4;
    var pad := if |s| > 0 && s[|s| - 1] == '=' then (if |s| > 1 && s[|s| - 2] == '=' then 2 else 1) else 0;
    if whole >= pad then whole - pad else 0
  }

  /** For a length divisible by 4, three bytes per quartet less one per trailing '=' (at most two). */
  lemma BufferLengthCanonical(s: string)
    requires |s| % 4 == 0
    ensures var pad := if |s| > 0 && s[|s| - 1] == '=' then (if s[|s| - 2] == '=' then 2 else 1) else 0;
      BufferLength(s) == |s| / 4 * 3 - pad
  {
    var q := |s| / 4;
    assert |s| == 4 * q;
    assert |s| * 3 / 4 == 3 * q;
  }

  /** `lookup[base64.charCodeAt(j)]`: an index past the end of the string reads as 0 (NaN indexes nothing). */
  function Code(s: string, j: nat): sextet {
    if j < |s| then Lookup(s[j]) else 0
  }

  /** `(encoded1 << 2) | (encoded2 >> 4)` (lib/utils.ts:34). */
  function Byte1(e1: sextet, e2: sextet): byte { (e1 * 4 + e2 / 16) as byte }
  /** `((encoded2 & 15) << 4) | (encoded3 >> 2)` (lib/utils.ts:37). */
  function Byte2(e2: sextet, e3: sextet): byte { (e2 % 16 * 16 + e3 / 4) as byte }
  /** `((encoded3 & 3) << 6) | (encoded4 & 63)` (lib/utils.ts:40). */
  function Byte3(e3: sextet, e4: sextet): byte { (e3 % 4 * 64 + e4 % 64) as byte }

  /**
   * The bytes one iteration of the loop at lib/utils.ts:28-42 stores, in cursor
   * order, given the four lookup values and whether the fourth character exists
   * and is not '=': always the first; the second unless the third lookup value is
   * 255; the third unless the fourth lookup value is 255 or the fourth character
   * is missing or '='.
   */
  function Stores(e1: sextet, e2: sextet, e3: sextet, e4: sextet, fourth: bool): seq<byte> {
    [Byte1(e1, e2)]
    + (if e3 != 255 then [Byte2(e2, e3)] else [])
    + (if e4 != 255 && fourth then [Byte3(e3, e4)] else [])
  }

  /** The stores of the iteration that starts at index `i`. */
  function QuartetWrites(s: string, i: nat): seq<byte> {
    Stores(Code(s, i), Code(s, i + 1), Code(s, i + 2), Code(s, i + 3), i + 3 < |s| && s[i + 3] != '=')
  }

  /** Every store the loop attempts from index `i` on, in cursor order. */
  function Writes(s: string, i: nat): seq<byte>
    decreases |s| - i
  {
    if i >= |s| then [] else QuartetWrites(s, i) + Writes(s, i + 4)
  }

  /** A zero-initialised buffer of length `n` after the stores `w`: stores past the end are dropped. */
  function Stored(w: seq<byte>, n: nat): (r: seq<byte>)
    ensures |r| == n
    ensures forall k :: 0 <= k < n ==> r[k] == if k < |w| then w[k] else 0
  {
    seq(n, k requires 0 <= k < n => if k < |w| then w[k] else 0)
  }

  /** The bytes `decode` returns. */
  function Decoded(s: string): seq<byte> {
    Stored(Writes(s, 0), BufferLength(s))
  }

  /** The buffer holds the stores `w` made so far through the cursor, zeros after them. */
  ghost predicate Holds(bytes: array<byte>, w: seq<byte>)
    reads bytes
  {
    forall k :: 0 <= k < bytes.Length ==> bytes[k] == if k < |w| then w[k] else 0
  }

  /** `bytes[p++] = v`: the store is dropped when the cursor is at or past the end. */
  method Put(bytes: array<byte>, p: nat, v: byte, ghost w: seq<byte>)
    requires p == |w| && Holds(bytes, w)
    modifies bytes
    ensures Holds(bytes, w + [v])
  {
    if p < bytes.Length {
      bytes[p] := v;
    }
  }

  /** `lookup[base64.charCodeAt(j)]`, where a code past the table reads as 0. */
  method LookupAt(lookup: array<byte>, s: string, j: nat) returns (e: sextet)
    requires lookup.Length == 256
    requires forall code :: 0 <= code < 256 ==> lookup[code] as int == Lookup(code as char)
    ensures e == Code(s, j)
  {
    if j < |s| && s[j] as int < 256 {
      assert (s[j] as int) as char == s[j];
      e := lookup[s[j] as int] as int;
    } else {
      e := 0;
    }
  }

  /** The stores of one iteration of the loop (lib/utils.ts:34-41). */
  method PutQuartet(bytes: array<byte>, p: nat, e1: sextet, e2: sextet, e3: sextet, e4: sextet, fourth: bool, ghost w: seq<byte>)
    returns (p': nat)
    requires p == |w| && Holds(bytes, w)
    modifies bytes
    ensures Holds(bytes, w + Stores(e1, e2, e3, e4, fourth))
    ensures p' == |w + Stores(e1, e2, e3, e4, fourth)|
  {
    ghost var q: seq<byte> := [];
    Put(bytes, p, Byte1(e1, e2), w + q);
    p', q := p + 1, q + [Byte1(e1, e2)];
    if e3 != 255 {
      Put(bytes, p', Byte2(e2, e3), w + q);
      p', q := p' + 1, q + [Byte2(e2, e3)];
    }
    if e4 != 255 && fourth {
      Put(bytes, p', Byte3(e3, e4), w + q);
      p', q := p' + 1, q + [Byte3(e3, e4)];
    }
    assert w + q + [] == w + q;
  }

  /** One iteration of the loop at lib/utils.ts:28-42, for the quartet at index `i`. */
  method DecodeQuartet(lookup: array<byte>, base64: string, i: nat, bytes: array<byte>, p: nat, ghost w: seq<byte>)
    returns (p': nat)
    requires lookup.Length == 256 && lookup != bytes
    requires forall code :: 0 <= code < 256 ==> lookup[code] as int == Lookup(code as char)
    requires p == |w| && Holds(bytes, w)
    modifies bytes
    ensures Holds(bytes, w + QuartetWrites(base64, i))
    ensures p' == |w + QuartetWrites(base64, i)|
  {
    var encoded1 := LookupAt(lookup, base64, i);
    var encoded2 := LookupAt(lookup, base64, i + 1);
    var encoded3 := LookupAt(lookup, base64, i + 2);
    var encoded4 := LookupAt(lookup, base64, i + 3);
    var fourth := i + 3 < |base64| && base64[i + 3] != '=';
    p' := PutQuartet(bytes, p, encoded1, encoded2, encoded3, encoded4, fourth, w);
  }

  /** `decode` of lib/utils.ts:7-45. */
  method Decode(base64: string) returns (bytes: array<byte>)
    ensures bytes[..] == Decoded(base64)
  {
    var lookup := BuildLookup();
    var bufferLength := BufferLength(base64);
    bytes := new byte[bufferLength](_ => 0);
    var p := 0;
    var len := |base64|;
    var i := 0;
    ghost var written: seq<byte> := [];
    while i < len
      modifies bytes
      invariant written + Writes(base64, i) == Writes(base64, 0)
      invariant p == |written| && Holds(bytes, written)
      decreases len - i
    {
      p := DecodeQuartet(lookup, base64, i, bytes, p, written);
      WritesStep(base64, i, written);
      written := written + QuartetWrites(base64, i);
      i := i + 4;
    }
    assert Writes(base64, i) == [];
    assert written == Writes(base64, 0);
    HeldIsStored(bytes[..], written);
  }

  /** Moving one quartet from the pending stores to the stores made keeps the whole run. */
  lemma WritesStep(s: string, i: nat, w: seq<byte>)
    requires i < |s|
    ensures w + Writes(s, i) == (w + QuartetWrites(s, i)) + Writes(s, i + 4)
  {
    var q := QuartetWrites(s, i);
    var rest := Writes(s, i + 4);
    assert Writes(s, i) == q + rest;
    assert w + (q + rest) == (w + q) + rest;
  }

  lemma HeldIsStored(b: seq<byte>, w: seq<byte>)
    requires forall k :: 0 <= k < |b| ==> b[k] == if k < |w| then w[k] else 0
    ensures b == Stored(w, |b|)
  {
  }
}

/*
 * The encoder of section 4 of RFC 4648, as a reference for the decoder: the
 * decoder returns every byte string from its canonical, padded encoding.
 */
module Base64Encoding {
  import opened Base64

  /** The six-bit fields of a group of three bytes, most significant first. */
  function Field1(b0: byte): sextet { b0 as int / 4 }
  function Field2(b0: byte, b1: byte): sextet { b0 as int % 4 * 16 + b1 as int / 16 }
  function Field3(b1: byte, b2: byte): sextet { b1 as int % 16 * 4 + b2 as int / 64 }
  function Field4(b2: byte): sextet { b2 as int % 64 }

  /** Three bytes as four characters. */
  function Group(b0: byte, b1: byte, b2: byte): string {
    [CharOf(Field1(b0)), CharOf(Field2(b0, b1)), CharOf(Field3(b1, b2)), CharOf(Field4(b2))]
  }

  /** A final pair of bytes as three characters and '='. */
  function Pair(b0: byte, b1: byte): string {
    [CharOf(Field1(b0)), CharOf(Field2(b0, b1)), CharOf(Field3(b1, 0)), '=']
  }

  /** A final single byte as two characters and "==". */
  function Single(b0: byte): string {
    [CharOf(Field1(b0)), CharOf(Field2(b0, 0)), '=', '=']
  }

  /** Padded base64 of RFC 4648: a final single byte ends in "==", a final pair in "=". */
  function Encode(b: seq<byte>): (s: string)
    ensures b != [] ==> |s| >= 4
    decreases |b|
  {
    if |b| == 0 then ""
    else if |b| == 1 then Single(b[0])
    else if |b| == 2 then Pair(b[0], b[1])
    else Group(b[0], b[1], b[2]) + Encode(b[3..])
  }

  /** An encoding has four characters for every started group of three bytes. */
  lemma {:induction false} EncodeLength(b: seq<byte>)
    ensures |Encode(b)| == 4 * ((|b| + 2) / 3)
    decreases |b|
  {
    if |b| >= 3 {
      EncodeGroupThen(b);
      EncodeLength(b[3..]);
      RemainderAfterGroup(|b|);
    }
  }

  lemma EncodeGroupThen(b: seq<byte>)
    requires |b| >= 3
    ensures Encode(b) == Group(b[0], b[1], b[2]) + Encode(b[3..])
  {
  }

  /** Decoding a quartet does not look past the four characters, wherever they sit. */
  lemma QuartetShift(x: string, y: string, j: nat)
    ensures QuartetWrites(x + y, |x| + j) == QuartetWrites(y, j)
  {
    assert Code(x + y, |x| + j) == Code(y, j);
    assert Code(x + y, |x| + j + 1) == Code(y, j + 1);
    assert Code(x + y, |x| + j + 2) == Code(y, j + 2);
    assert Code(x + y, |x| + j + 3) == Code(y, j + 3);
  }

  lemma {:induction false} WritesShift(x: string, y: string, j: nat)
    ensures Writes(x + y, |x| + j) == Writes(y, j)
    decreases |y| - j
  {
    if j < |y| {
      QuartetShift(x, y, j);
      WritesShift(x, y, j + 4);
      assert |x| + j + 4 == |x| + (j + 4);
    }
  }

  lemma QuartetPrefix(g: string, y: string)
    requires |g| == 4
    ensures QuartetWrites(g + y, 0) == QuartetWrites(g, 0)
  {
    assert (g + y)[..4] == g;
  }

  /** The decoder's bytes reassemble the fields: the first byte from fields one and two, */
  lemma Byte1OfFields(b0: byte, b1: byte)
    ensures Byte1(Field1(b0), Field2(b0, b1)) == b0
  {
    var r, h := b0 as int % 4, b1 as int / 16;
    assert Field2(b0, b1) == r * 16 + h;
    assert (r * 16 + h) / 16 == r;
  }

  /** the second from fields two and three, */
  lemma Byte2OfFields(b0: byte, b1: byte, b2: byte)
    ensures Byte2(Field2(b0, b1), Field3(b1, b2)) == b1
  {
    var r, h, l, t := b0 as int % 4, b1 as int / 16, b1 as int % 16, b2 as int / 64;
    assert Field2(b0, b1) == r * 16 + h;
    assert (r * 16 + h) % 16 == h;
    assert Field3(b1, b2) == l * 4 + t;
    assert (l * 4 + t) / 4 == l;
  }

  /** and the third from fields three and four. */
  lemma Byte3OfFields(b1: byte, b2: byte)
    ensures Byte3(Field3(b1, b2), Field4(b2)) == b2
  {
    var l, t := b1 as int % 16, b2 as int / 64;
    assert Field3(b1, b2) == l * 4 + t;
    assert (l * 4 + t) % 4 == t;
  }

  /** A full group decodes to its three bytes. */
  lemma GroupWrites(b0: byte, b1: byte, b2: byte)
    ensures QuartetWrites(Group(b0, b1, b2), 0) == [b0, b1, b2]
  {
    var g := Group(b0, b1, b2);
    Byte1OfFields(b0, b1);
    Byte2OfFields(b0, b1, b2);
    Byte3OfFields(b1, b2);
    LookupCharOf(Field1(b0));
    LookupCharOf(Field2(b0, b1));
    LookupCharOf(Field3(b1, b2));
    LookupCharOf(Field4(b2));
    assert Code(g, 0) == Field1(b0) && Code(g, 1) == Field2(b0, b1);
    assert Code(g, 2) == Field3(b1, b2) && Code(g, 3) == Field4(b2);
  }

  /** A final pair, "xxx=", decodes to its two bytes: the '=' suppresses the third store. */
  lemma PairWrites(b0: byte, b1: byte)
    ensures QuartetWrites(Pair(b0, b1), 0) == [b0, b1]
  {
    var g := Pair(b0, b1);
    Byte1OfFields(b0, b1);
    Byte2OfFields(b0, b1, 0);
    LookupCharOf(Field1(b0));
    LookupCharOf(Field2(b0, b1));
    LookupCharOf(Field3(b1, 0));
    PadLooksUpZero();
    assert Code(g, 0) == Field1(b0) && Code(g, 1) == Field2(b0, b1) && Code(g, 2) == Field3(b1, 0);
  }

  /**
   * A final single byte, "xx==", stores its byte and then a zero: '=' looks up as 0,
   * not 255, so the second store happens. The buffer is one byte too short for it.
   */
  lemma SingleWrites(b0: byte)
    ensures QuartetWrites(Single(b0), 0) == [b0, 0]
  {
    var g := Single(b0);
    Byte1OfFields(b0, 0);
    assert Byte2(Field2(b0, 0), 0) == 0;
    LookupCharOf(Field1(b0));
    LookupCharOf(Field2(b0, 0));
    PadLooksUpZero();
    assert Code(g, 0) == Field1(b0) && Code(g, 1) == Field2(b0, 0) && Code(g, 2) == 0;
  }

  /** A full group in front of more characters contributes its three bytes in front of theirs. */
  lemma WritesGroupThen(b0: byte, b1: byte, b2: byte, rest: string)
    ensures Writes(Group(b0, b1, b2) + rest, 0) == [b0, b1, b2] + Writes(rest, 0)
  {
    var g := Group(b0, b1, b2);
    QuartetPrefix(g, rest);
    GroupWrites(b0, b1, b2);
    WritesShift(g, rest, 0);
    assert Writes(g + rest, 0) == QuartetWrites(g + rest, 0) + Writes(g + rest, 4);
  }

  /** The zero stored past the end after a single final byte. */
  function Stray(n: nat): seq<byte> {
    if n % 3 == 1 then [0] else []
  }

  lemma WritesOfSingle(b0: byte)
    ensures Writes(Single(b0), 0) == [b0, 0]
  {
    SingleWrites(b0);
    assert Writes(Single(b0), 4) == [];
  }

  lemma WritesOfPair(b0: byte, b1: byte)
    ensures Writes(Pair(b0, b1), 0) == [b0, b1]
  {
    PairWrites(b0, b1);
    assert Writes(Pair(b0, b1), 4) == [];
  }

  lemma EncodeOne(b: seq<byte>)
    requires |b| == 1
    ensures Encode(b) == Single(b[0])
  {
  }

  lemma EncodeTwo(b: seq<byte>)
    requires |b| == 2
    ensures Encode(b) == Pair(b[0], b[1])
  {
  }

  lemma WritesEncodeOne(b: seq<byte>)
    requires |b| == 1
    ensures Writes(Encode(b), 0) == b + Stray(|b|)
  {
    EncodeOne(b);
    WritesOfSingle(b[0]);
    StrayOne(b);
  }

  lemma StrayOne(b: seq<byte>)
    requires |b| == 1
    ensures b + Stray(|b|) == [b[0], 0]
  {
    assert Stray(|b|) == [0];
  }

  lemma WritesEncodeTwo(b: seq<byte>)
    requires |b| == 2
    ensures Writes(Encode(b), 0) == b + Stray(|b|)
  {
    EncodeTwo(b);
    WritesOfPair(b[0], b[1]);
    StrayTwo(b);
  }

  lemma StrayTwo(b: seq<byte>)
    requires |b| == 2
    ensures b + Stray(|b|) == [b[0], b[1]]
  {
    assert Stray(|b|) == [];
  }

  lemma StrayGroupThen(b: seq<byte>)
    requires |b| >= 3
    ensures b + Stray(|b|) == [b[0], b[1], b[2]] + (b[3..] + Stray(|b[3..]|))
  {
    RemainderAfterGroup(|b|);
    assert Stray(|b[3..]|) == Stray(|b|);
    assert b == [b[0], b[1], b[2]] + b[3..];
  }

  /** The stores made for an encoding: the bytes, and one stray zero when a single byte ends it. */
  lemma {:induction false} WritesEncode(b: seq<byte>)
    ensures Writes(Encode(b), 0) == b + Stray(|b|)
    decreases |b|
  {
    if |b| == 1 {
      WritesEncodeOne(b);
    } else if |b| == 2 {
      WritesEncodeTwo(b);
    } else if |b| >= 3 {
      WritesEncode(b[3..]);
      EncodeGroupThen(b);
      StrayGroupThen(b);
      WritesGroupThen(b[0], b[1], b[2], Encode(b[3..]));
    }
  }

  /** The last two characters of `x + y` are those of `y` when `y` has two or more. */
  lemma EndsOfAppend(x: string, y: string)
    requires |y| >= 2
    ensures (x + y)[|x + y| - 1] == y[|y| - 1] && (x + y)[|x + y| - 2] == y[|y| - 2]
  {
  }

  /** The encoding ends in "==" exactly after a single final byte and in '=' exactly after a final pair. */
  lemma {:induction false} EncodeTail(b: seq<byte>)
    requires |b| > 0
    ensures var e := Encode(b);
      (e[|e| - 1] == '=' <==> |b| % 3 != 0) && (e[|e| - 2] == '=' <==> |b| % 3 == 1)
    decreases |b|
  {
    if |b| == 1 {
      EncodeOne(b);
    } else if |b| == 2 {
      EncodeTwo(b);
      LookupCharOf(Field3(b[1], 0));
    } else if |b| == 3 {
      EncodeTailThree(b);
    } else {
      EncodeTail(b[3..]);
      EncodeTailMore(b);
      RemainderAfterGroup(|b|);
    }
  }

  lemma EncodeTailThree(b: seq<byte>)
    requires |b| == 3
    ensures var e := Encode(b); e[|e| - 1] != '=' && e[|e| - 2] != '='
  {
    EncodeGroupThen(b);
    LookupCharOf(Field3(b[1], b[2]));
    LookupCharOf(Field4(b[2]));
    assert Encode(b[3..]) == [];
    assert Encode(b) == Group(b[0], b[1], b[2]);
  }

  lemma EncodeTailMore(b: seq<byte>)
    requires |b| > 3
    ensures var e, e' := Encode(b), Encode(b[3..]);
      e[|e| - 1] == e'[|e'| - 1] && e[|e| - 2] == e'[|e'| - 2]
  {
    EncodeGroupThen(b);
    EndsOfAppend(Group(b[0], b[1], b[2]), Encode(b[3..]));
  }

  /** Taking a group of three off a length keeps its remainder and removes one started group. */
  lemma RemainderAfterGroup(n: nat)
    requires n >= 3
    ensures (n - 3) % 3 == n % 3
    ensures (n - 3 + 2) / 3 == (n + 2) / 3 - 1
  {
  }

  /** The buffer length of `groups` quartets whose last `pad` characters are '='. */
  lemma BufferLengthPadded(s: string, groups: nat, pad: nat)
    requires |s| == 4 * groups && groups > 0 && pad <= 2
    requires s[|s| - 1] == '=' <==> pad >= 1
    requires s[|s| - 2] == '=' <==> pad == 2
    ensures BufferLength(s) == 3 * groups - pad
  {
    assert |s| * 3 / 4 == 3 * groups;
  }

  /** The buffer length of a padded string of `len` bytes' worth of quartets. */
  lemma BufferLengthOfPadded(s: string, len: nat)
    requires len > 0 && |s| == 4 * ((len + 2) / 3) && |s| >= 4
    requires s[|s| - 1] == '=' <==> len % 3 != 0
    requires s[|s| - 2] == '=' <==> len % 3 == 1
    ensures BufferLength(s) == len
  {
    var n, r := len / 3, len % 3;
    assert len == 3 * n + r;
    if r == 0 {
      assert (len + 2) / 3 == n;
      BufferLengthPadded(s, n, 0);
    } else {
      assert (len + 2) / 3 == n + 1;
      BufferLengthPadded(s, n + 1, 3 - r);
    }
  }

  /** The buffer `decode` allocates for an encoding has exactly the encoded number of bytes. */
  lemma BufferLengthEncode(b: seq<byte>)
    ensures BufferLength(Encode(b)) == |b|
  {
    if |b| > 0 {
      EncodeLength(b);
      EncodeTail(b);
      BufferLengthOfPadded(Encode(b), |b|);
    }
  }

  /** Round trip: `decode` of the RFC 4648 encoding of any byte string gives the byte string back. */
  lemma RoundTrip(b: seq<byte>)
    ensures Decoded(Encode(b)) == b
  {
    WritesEncode(b);
    BufferLengthEncode(b);
  }

  /** "QUI=" is the encoding of the bytes 65, 66 ("AB"). */
  lemma DecodePairExample()
    ensures Decoded("QUI=") == [65, 66]
  {
    RoundTrip([65, 66]);
    EncodePairExample();
  }

  lemma EncodePairExample()
    ensures Encode([65, 66]) == "QUI="
  {
    var b: seq<byte> := [65, 66];
    EncodeTwo(b);
    assert Field1(65) == 16 && Field2(65, 66) == 20 && Field3(66, 0) == 8;
    assert CharOf(16) == 'Q' && CharOf(20) == 'U' && CharOf(8) == 'I';
  }

  /** "QQ==" is the encoding of the single byte 65 ('A'). */
  lemma DecodeSingleExample()
    ensures Decoded("QQ==") == [65]
  {
    RoundTrip([65]);
    assert CharOf(16) == 'Q';
    assert Encode([65]) == "QQ==";
  }
}
