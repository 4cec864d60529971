/**
 * The string operations the plug identity code relies on: `'%02x' % b`,
 * `int(chunk, 16)`, `str.join`, `str.split` with a one-character separator,
 * and ASCII `str.upper` / `str.lower`.
 */
module Text {
  import opened Wrappers

  type Byte = x: int | 0 <= x < 256

  /** The lower-case hexadecimal digit for `d`, as `'%x'` prints it. */
  function HexDigit(d: nat): (c: char)
    requires d < 16
  {
    if d < 10 then ('0' as int + d) as char else ('a' as int + d - 10) as char
  }

  predicate IsLowerHexChar(c: char) {
    '0' <= c <= '9' || 'a' <= c <= 'f'
  }

  /** `int(c, 16)` on a single character: `None` where Python raises ValueError. */
  function DigitValue(c: char): (r: Option<nat>)
    ensures r.Some? ==> r.value < 16
    ensures IsLowerHexChar(c) ==> r.Some? && HexDigit(r.value) == c
    ensures 'A' <= c <= 'F' ==> r == Some(c as int - 'A' as int + 10)
    ensures !(IsLowerHexChar(c) || 'A' <= c <= 'F') ==> r.None?
  {
    if '0' <= c <= '9' then Some(c as int - '0' as int)
    else if 'a' <= c <= 'f' then Some(c as int - 'a' as int + 10)
    else if 'A' <= c <= 'F' then Some(c as int - 'A' as int + 10)
    else None
  }

  lemma DigitValueOfHexDigit(d: nat)
    requires d < 16
    ensures IsLowerHexChar(HexDigit(d)) && DigitValue(HexDigit(d)) == Some(d)
  {
  }

  /** The hexadecimal numeral of `n` without leading zeros. */
  function HexNumeral(n: nat): (s: string)
    decreases n
  {
    if n < 16 then [HexDigit(n)] else HexNumeral(n / 16) + [HexDigit(n % 16)]
  }

  /** `'%02x' % n`: at least two lower-case hexadecimal digits. */
  function Hex2(n: nat): string {
    if n < 16 then ['0', HexDigit(n)] else HexNumeral(n)
  }

  /** A byte prints as exactly its high and its low nibble. */
  lemma Hex2OfByte(b: Byte)
    ensures Hex2(b) == [HexDigit(b / 16), HexDigit(b % 16)]
  {
    if b >= 16 {
      assert HexNumeral(b / 16) == [HexDigit(b / 16)];
    }
  }

  /**
   * `int(s, 16)` for text made of hexadecimal digits only; `None` stands for
   * the ValueError Python raises on an empty or non-hexadecimal chunk.
   */
  function ParseHex(s: string): (r: Option<nat>)
    ensures r.Some? <==> s != [] && forall c :: c in s ==> DigitValue(c).Some?
    decreases |s|
  {
    if s == [] then None
    else if |s| == 1 then DigitValue(s[0])
    else
      match ParseHex(s[..|s| - 1])
      case None => None
      case Some(v) =>
        match DigitValue(s[|s| - 1])
        case None => None
        case Some(d) => Some(v * 16 + d)
  }

  lemma {:induction false} ParseHex2(b: Byte)
    ensures ParseHex(Hex2(b)) == Some(b)
  {
    Hex2OfByte(b);
    var s := Hex2(b);
    DigitValueOfHexDigit(b / 16);
    DigitValueOfHexDigit(b % 16);
    assert s[..1] == [HexDigit(b / 16)];
  }

  /** `sep.join(parts)`. */
  function Join(parts: seq<string>, sep: string): string {
    if parts == [] then []
    else if |parts| == 1 then parts[0]
    else parts[0] + sep + Join(parts[1..], sep)
  }

  /** `s.split(sep)` for a one-character separator. */
  function Split(s: string, sep: char): (r: seq<string>)
    ensures |r| >= 1
  {
    if s == [] then [""]
    else if s[0] == sep then [""] + Split(s[1..], sep)
    else
      var rest := Split(s[1..], sep);
      [[s[0]] + rest[0]] + rest[1..]
  }

  lemma {:induction false} SplitWithoutSeparator(p: string, sep: char)
    requires sep !in p
    ensures Split(p, sep) == [p]
  {
    if p != [] {
      SplitWithoutSeparator(p[1..], sep);
      assert [p[0]] + p[1..] == p;
    }
  }

  lemma {:induction false} SplitAtFirstSeparator(p: string, t: string, sep: char)
    requires sep !in p
    ensures Split(p + [sep] + t, sep) == [p] + Split(t, sep)
  {
    if p == [] {
      assert p + [sep] + t == [sep] + t;
      assert ([sep] + t)[1..] == t;
    } else {
      var s := p + [sep] + t;
      assert s[0] == p[0];
      assert s[1..] == p[1..] + [sep] + t;
      SplitAtFirstSeparator(p[1..], t, sep);
      assert [p[0]] + p[1..] == p;
    }
  }

  /** Splitting a joined text on its separator gives the parts back. */
  lemma {:induction false} SplitJoin(parts: seq<string>, sep: char)
    requires parts != []
    requires forall k :: 0 <= k < |parts| ==> sep !in parts[k]
    ensures Split(Join(parts, [sep]), sep) == parts
  {
    if |parts| == 1 {
      SplitWithoutSeparator(parts[0], sep);
    } else {
      SplitJoin(parts[1..], sep);
      SplitAtFirstSeparator(parts[0], Join(parts[1..], [sep]), sep);
      assert [parts[0]] + parts[1..] == parts;
    }
  }

  /** The `'%02x'` renderings of `bytes`, one per element. */
  function HexGroups(bytes: seq<nat>): (groups: seq<string>)
    ensures |groups| == |bytes|
  {
    seq(|bytes|, k requires 0 <= k < |bytes| => Hex2(bytes[k]))
  }

  predicate AllBytes(bytes: seq<nat>) {
    forall k :: 0 <= k < |bytes| ==> bytes[k] < 256
  }

  /** The values of raw bytes, as Python sees the ints `random.randrange(256)` returns. */
  function AsInts(s: seq<bv8>): (r: seq<nat>)
    ensures |r| == |s| && AllBytes(r)
    ensures forall k :: 0 <= k < |s| ==> r[k] == s[k] as int
  {
    seq(|s|, k requires 0 <= k < |s| => s[k] as int)
  }

  /**
   * `sep.join('%02x' % b for b in bytes)` with a one-character separator:
   * byte `k` takes characters `3k` (high nibble) and `3k + 1` (low nibble),
   * and the separator follows at `3k + 2` unless `k` is the last byte.
   */
  lemma {:induction false} SeparatedHexAt(bytes: seq<nat>, sep: char, k: nat)
    requires AllBytes(bytes) && k < |bytes|
    ensures |Join(HexGroups(bytes), [sep])| == 3 * |bytes| - 1
    ensures Join(HexGroups(bytes), [sep])[3 * k] == HexDigit(bytes[k] / 16)
    ensures Join(HexGroups(bytes), [sep])[3 * k + 1] == HexDigit(bytes[k] % 16)
    ensures k + 1 < |bytes| ==> Join(HexGroups(bytes), [sep])[3 * k + 2] == sep
    decreases |bytes|
  {
    var groups := HexGroups(bytes);
    Hex2OfByte(bytes[0]);
    if |bytes| > 1 {
      var tail := Join(groups[1..], [sep]);
      var head := Hex2(bytes[0]) + [sep];
      assert Join(groups, [sep]) == head + tail;
      assert HexGroups(bytes[1..]) == groups[1..];
      SeparatedHexAt(bytes[1..], sep, if k == 0 then 0 else k - 1);
      if k > 0 {
        assert bytes[1..][k - 1] == bytes[k];
      }
    }
  }

  /** `''.join('%02x' % b for b in bytes)`: byte `k` takes characters `2k` and `2k + 1`. */
  lemma {:induction false} ConcatenatedHexAt(bytes: seq<nat>, k: nat)
    requires AllBytes(bytes) && k < |bytes|
    ensures |Join(HexGroups(bytes), [])| == 2 * |bytes|
    ensures Join(HexGroups(bytes), [])[2 * k] == HexDigit(bytes[k] / 16)
    ensures Join(HexGroups(bytes), [])[2 * k + 1] == HexDigit(bytes[k] % 16)
    decreases |bytes|
  {
    var groups := HexGroups(bytes);
    Hex2OfByte(bytes[0]);
    if |bytes| > 1 {
      var tail := Join(groups[1..], []);
      assert Join(groups, []) == Hex2(bytes[0]) + tail;
      assert HexGroups(bytes[1..]) == groups[1..];
      ConcatenatedHexAt(bytes[1..], if k == 0 then 0 else k - 1);
      if k > 0 {
        assert bytes[1..][k - 1] == bytes[k];
      }
    }
  }

  /** `[int(chunk, 16) for chunk in chunks]`: `None` when one chunk is not hexadecimal. */
  function ParseHexList(chunks: seq<string>): (r: Option<seq<nat>>)
    ensures r.Some? <==> forall k :: 0 <= k < |chunks| ==> ParseHex(chunks[k]).Some?
    ensures r.Some? ==> |r.value| == |chunks|
    ensures r.Some? ==> forall k :: 0 <= k < |chunks| ==> r.value[k] == ParseHex(chunks[k]).value
  {
    if chunks == [] then Some([])
    else
      match ParseHex(chunks[0])
      case None => None
      case Some(v) =>
        match ParseHexList(chunks[1..])
        case None => None
        case Some(vs) => Some([v] + vs)
  }

  lemma {:induction false} ParseHexGroups(bytes: seq<nat>)
    requires AllBytes(bytes)
    ensures ParseHexList(HexGroups(bytes)) == Some(bytes)
  {
    if bytes != [] {
      ParseHex2(bytes[0]);
      assert HexGroups(bytes)[1..] == HexGroups(bytes[1..]);
      ParseHexGroups(bytes[1..]);
      assert [bytes[0]] + bytes[1..] == bytes;
    }
  }

  /** A `'%02x'` group never contains a character outside the hex digits. */
  lemma HexGroupAvoids(b: Byte, c: char)
    requires !IsLowerHexChar(c)
    ensures c !in Hex2(b)
  {
    Hex2OfByte(b);
  }

  function UpperChar(c: char): char {
    if 'a' <= c <= 'z' then (c as int - 32) as char else c
  }

  function LowerChar(c: char): char {
    if 'A' <= c <= 'Z' then (c as int + 32) as char else c
  }

  /** `s.upper()` on ASCII letters. */
  function Upper(s: string): (r: string)
    ensures |r| == |s|
    ensures forall k :: 0 <= k < |s| ==> !('a' <= r[k] <= 'z')
    ensures forall k :: 0 <= k < |s| && !('a' <= s[k] <= 'z') ==> r[k] == s[k]
    ensures forall k :: 0 <= k < |s| && 'a' <= s[k] <= 'z' ==> r[k] == (s[k] as int - 32) as char
  {
    seq(|s|, k requires 0 <= k < |s| => UpperChar(s[k]))
  }

  /** `s.lower()` on ASCII letters. */
  function Lower(s: string): (r: string)
    ensures |r| == |s|
    ensures forall k :: 0 <= k < |s| ==> !('A' <= r[k] <= 'Z')
    ensures forall k :: 0 <= k < |s| && !('A' <= s[k] <= 'Z') ==> r[k] == s[k]
    ensures forall k :: 0 <= k < |s| && 'A' <= s[k] <= 'Z' ==> r[k] == (s[k] as int + 32) as char
  {
    seq(|s|, k requires 0 <= k < |s| => LowerChar(s[k]))
  }
}
