module Payload {
  /** IDs as canonical UUID text (internal/realtime/payload.go): 32 hexadecimal
      digits in groups of 8-4-4-4-12, written in lower case, read in either. */

  import opened Common

  /** An ID is sixteen bytes. */
  type ID = b: seq<nat> | |b| == 16 && forall k :: 0 <= k < 16 ==> b[k] < 256
    witness seq(16, _ => 0)

  const LENGTH := 36

  predicate Dash(k: int) {
    k == 8 || k == 13 || k == 18 || k == 23
  }

  /** Where the d-th hexadecimal digit stands. */
  function DigitAt(d: nat): nat {
    if d < 8 then d else if d < 12 then d + 1 else if d < 16 then d + 2 else if d < 20 then d + 3 else d + 4
  }

  /** Which digit stands at a position that is not a dash. */
  function DigitOf(k: nat): nat {
    if k < 8 then k else if k < 13 then k - 1 else if k < 18 then k - 2 else if k < 23 then k - 3 else k - 4
  }

  function HexDigit(v: nat): char
    requires v < 16
  {
    if v < 10 then '0' + v as char else 'a' + (v - 10) as char
  }

  function HexValue(c: char): Option<nat> {
    if '0' <= c <= '9' then Some(c as nat - '0' as nat)
    else if 'a' <= c <= 'f' then Some(c as nat - 'a' as nat + 10)
    else if 'A' <= c <= 'F' then Some(c as nat - 'A' as nat + 10)
    else None
  }

  /** The d-th digit of the bytes: high half first. */
  function Nibble(id: ID, d: nat): (v: nat)
    requires d < 32
    ensures v < 16
  {
    if d % 2 == 0 then id[d / 2] / 16 else id[d / 2] % 16
  }

  function FormatAt(id: ID, k: nat): char
    requires k < LENGTH
  {
    if Dash(k) then '-' else HexDigit(Nibble(id, DigitOf(k)))
  }

  function Format(id: ID): string {
    seq(LENGTH, k requires 0 <= k < LENGTH => FormatAt(id, k))
  }

  predicate Canonical(value: string) {
    && |value| == LENGTH
    && (forall k :: 0 <= k < LENGTH && Dash(k) ==> value[k] == '-')
    && (forall k :: 0 <= k < LENGTH && !Dash(k) ==> HexValue(value[k]).Some?)
  }

  function Parse(value: string): Option<ID> {
    if Canonical(value) then Some(seq(16, b requires 0 <= b < 16 => ByteAt(value, b))) else None
  }

  function ByteAt(value: string, b: nat): (v: nat)
    requires Canonical(value) && b < 16
    ensures v < 256
  {
    16 * Value(value[DigitAt(2 * b)]) + Value(value[DigitAt(2 * b + 1)])
  }

  function Value(c: char): (v: nat)
    requires HexValue(c).Some?
    ensures v < 16
  {
    HexValue(c).value
  }

  predicate Upper(c: char) {
    'A' <= c <= 'F'
  }

  lemma FormatIsCanonical(id: ID)
    ensures Canonical(Format(id)) && forall k :: 0 <= k < LENGTH ==> !Upper(Format(id)[k])
  {
  }

  lemma ByteBack(id: ID, b: nat)
    requires b < 16 && Canonical(Format(id))
    ensures ByteAt(Format(id), b) == id[b]
  {
    assert DigitOf(DigitAt(2 * b)) == 2 * b && DigitOf(DigitAt(2 * b + 1)) == 2 * b + 1;
    assert !Dash(DigitAt(2 * b)) && !Dash(DigitAt(2 * b + 1));
    assert Format(id)[DigitAt(2 * b)] == HexDigit(id[b] / 16);
    assert Format(id)[DigitAt(2 * b + 1)] == HexDigit(id[b] % 16);
  }

  /** What Format writes, Parse reads back. */
  lemma ParseFormat(id: ID)
    ensures Parse(Format(id)) == Some(id)
  {
    FormatIsCanonical(id);
    forall b | 0 <= b < 16 ensures ByteAt(Format(id), b) == id[b] {
      ByteBack(id, b);
    }
    assert Parse(Format(id)).value == id;
  }

  /** What Parse accepts without upper-case digits is what Format writes. */
  lemma FormatParse(value: string)
    requires Parse(value).Some? && forall k :: 0 <= k < LENGTH ==> !Upper(value[k])
    ensures Format(Parse(value).value) == value
  {
    var id := Parse(value).value;
    forall k | 0 <= k < LENGTH ensures FormatAt(id, k) == value[k] {
      if !Dash(k) {
        DigitBack(value, k);
      }
    }
  }

  lemma DigitBack(value: string, k: nat)
    requires Canonical(value) && k < LENGTH && !Dash(k) && !Upper(value[k])
    ensures HexDigit(Nibble(Parse(value).value, DigitOf(k))) == value[k]
  {
    var d, id := DigitOf(k), Parse(value).value;
    assert DigitAt(d) == k;
    assert id[d / 2] == ByteAt(value, d / 2);
    if d % 2 == 0 {
      assert 2 * (d / 2) == d;
    } else {
      assert 2 * (d / 2) + 1 == d;
    }
    assert Nibble(id, d) == Value(value[k]);
  }

  /** hex.Encode of the bytes from `first` on, to the positions from `at` on. */
  method EncodeHex(b: array<char>, at: nat, id: ID, first: nat, count: nat)
    requires first + count <= 16 && at + 2 * count <= b.Length
    modifies b
    ensures forall k :: 0 <= k < b.Length && !(at <= k < at + 2 * count) ==> b[k] == old(b[k])
    ensures forall k :: at <= k < at + 2 * count ==> b[k] == HexDigit(Nibble(id, 2 * first + (k - at)))
  {
    var i := 0;
    while i < count
      invariant i <= count
      invariant forall k :: 0 <= k < b.Length && !(at <= k < at + 2 * i) ==> b[k] == old(b[k])
      invariant forall k :: at <= k < at + 2 * i ==> b[k] == HexDigit(Nibble(id, 2 * first + (k - at)))
    {
      assert Nibble(id, 2 * first + 2 * i) == id[first + i] / 16 && Nibble(id, 2 * first + 2 * i + 1) == id[first + i] % 16;
      b[at + 2 * i] := HexDigit(id[first + i] / 16);
      b[at + 2 * i + 1] := HexDigit(id[first + i] % 16);
      i := i + 1;
    }
  }

  /** FormatPayloadID fills the text group by group and sets the dashes. */
  method FormatPayloadID(id: ID) returns (text: string)
    ensures text == Format(id)
  {
    var b := new char[LENGTH](_ => '-');
    EncodeHex(b, 0, id, 0, 4);
    EncodeHex(b, 9, id, 4, 2);
    EncodeHex(b, 14, id, 6, 2);
    EncodeHex(b, 19, id, 8, 2);
    EncodeHex(b, 24, id, 10, 6);
    b[8], b[13], b[18], b[23] := '-', '-', '-', '-';
    text := b[..];
    forall k | 0 <= k < LENGTH ensures text[k] == FormatAt(id, k) {
      var d := DigitOf(k);
      if !Dash(k) {
        assert text[k] == HexDigit(Nibble(id, d));
      }
    }
  }
}
