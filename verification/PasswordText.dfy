module PasswordText {
  /** The canonical string of a password hash (internal/identity/password.go) and
      the base64 in it: section 4 of RFC 4648, without padding. */

  import opened Common
  import opened Decimal
  import ChatGrammar

  type Byte = x: nat | x < 256

  // ----- base64 -----

  predicate IsCode(c: char) {
    'A' <= c <= 'Z' || 'a' <= c <= 'z' || '0' <= c <= '9' || c == '+' || c == '/'
  }

  function Code(v: nat): (c: char)
    requires v < 64
    ensures IsCode(c)
  {
    if v < 26 then 'A' + v as char
    else if v < 52 then 'a' + (v - 26) as char
    else if v < 62 then '0' + (v - 52) as char
    else if v == 62 then '+' else '/'
  }

  function Sextet(c: char): (v: nat)
    requires IsCode(c)
    ensures v < 64
  {
    if 'A' <= c <= 'Z' then (c - 'A') as nat
    else if 'a' <= c <= 'z' then (c - 'a') as nat + 26
    else if '0' <= c <= '9' then (c - '0') as nat + 52
    else if c == '+' then 62 else 63
  }

  /** The sextets of three bytes, and the bytes of four sextets. */
  function First(x: Byte): (v: nat)
    ensures v < 64
  {
    x / 4
  }

  function Second(x: Byte, y: Byte): (v: nat)
    ensures v < 64
  {
    x % 4 * 16 + y / 16
  }

  function Third(y: Byte, z: Byte): (v: nat)
    ensures v < 64
  {
    y % 16 * 4 + z / 64
  }

  function Fourth(z: Byte): (v: nat)
    ensures v < 64
  {
    z % 64
  }

  function Byte0(a: nat, b: nat): Byte
    requires a < 64 && b < 64
  {
    a * 4 + b / 16
  }

  function Byte1(b: nat, c: nat): Byte
    requires b < 64 && c < 64
  {
    b % 16 * 16 + c / 4
  }

  function Byte2(c: nat, d: nat): Byte
    requires c < 64 && d < 64
  {
    c % 4 * 64 + d
  }

  function Encode(b: seq<Byte>): string {
    if |b| == 0 then ""
    else if |b| == 1 then [Code(First(b[0])), Code(Second(b[0], 0))]
    else if |b| == 2 then [Code(First(b[0])), Code(Second(b[0], b[1])), Code(Third(b[1], 0))]
    else [Code(First(b[0])), Code(Second(b[0], b[1])), Code(Third(b[1], b[2])), Code(Fourth(b[2]))] + Encode(b[3..])
  }

  /** The strict decoder: the bits left over must be zero. */
  function DecodeCodes(s: string): Option<seq<Byte>>
    requires AllCodes(s)
  {
    if |s| == 0 then Some([])
    else if |s| == 1 then None
    else
      var a, b := Sextet(s[0]), Sextet(s[1]);
      if |s| == 2 then if Byte1(b, 0) == 0 then Some([Byte0(a, b)]) else None
      else
        var c := Sextet(s[2]);
        if |s| == 3 then if Byte2(c, 0) == 0 then Some([Byte0(a, b), Byte1(b, c)]) else None
        else
          var rest := DecodeCodes(s[4..]);
          if rest.None? then None else Some([Byte0(a, b), Byte1(b, c), Byte2(c, Sextet(s[3]))] + rest.value)
  }

  /** The decoder skips line breaks wherever they are. */
  function WithoutBreaks(s: string): string {
    if s == "" then ""
    else if s[0] == '\n' || s[0] == '\r' then WithoutBreaks(s[1..])
    else [s[0]] + WithoutBreaks(s[1..])
  }

  predicate AllCodes(s: string) {
    forall k :: 0 <= k < |s| ==> IsCode(s[k])
  }

  function Decode(s: string): Option<seq<Byte>> {
    var codes := WithoutBreaks(s);
    if AllCodes(codes) then DecodeCodes(codes) else None
  }

  lemma CodeBack(v: nat)
    requires v < 64
    ensures Sextet(Code(v)) == v
  {
  }

  lemma SextetBack(c: char)
    requires IsCode(c)
    ensures Code(Sextet(c)) == c
  {
  }

  /** Three bytes are four sextets and back. */
  lemma Joined(x: Byte, y: Byte, z: Byte)
    ensures Byte0(First(x), Second(x, y)) == x && Byte1(Second(x, y), Third(y, z)) == y && Byte2(Third(y, z), Fourth(z)) == z
    ensures Fourth(0) == 0 && Third(0, 0) == 0
  {
    assert y / 16 < 16 && z / 64 < 4;
  }

  lemma Parted(a: nat, b: nat, c: nat, d: nat)
    requires a < 64 && b < 64 && c < 64 && d < 64
    ensures First(Byte0(a, b)) == a && Second(Byte0(a, b), Byte1(b, c)) == b
    ensures Third(Byte1(b, c), Byte2(c, d)) == c && Fourth(Byte2(c, d)) == d
  {
    assert b / 16 < 4 && c / 4 < 16;
  }

  lemma {:induction false} EncodedCodes(b: seq<Byte>)
    ensures AllCodes(Encode(b)) && |Encode(b)| == (4 * |b| + 2) / 3
  {
    hide Code, First, Second, Third, Fourth;
    if |b| >= 3 {
      EncodedCodes(b[3..]);
    }
  }

  lemma CodesBack(x: Byte, y: Byte, z: Byte)
    ensures Sextet(Code(First(x))) == First(x) && Sextet(Code(Second(x, y))) == Second(x, y)
    ensures Sextet(Code(Third(y, z))) == Third(y, z) && Sextet(Code(Fourth(z))) == Fourth(z)
  {
    hide Code, Sextet, First, Second, Third, Fourth;
    CodeBack(First(x));
    CodeBack(Second(x, y));
    CodeBack(Third(y, z));
    CodeBack(Fourth(z));
  }

  lemma {:induction false} DecodeEncoded(b: seq<Byte>)
    ensures AllCodes(Encode(b)) && DecodeCodes(Encode(b)) == Some(b)
  {
    hide Code, Sextet, First, Second, Third, Fourth, Byte0, Byte1, Byte2;
    EncodedCodes(b);
    if |b| > 0 {
      var x, y, z := b[0], if |b| > 1 then b[1] else 0, if |b| > 2 then b[2] else 0;
      Joined(x, y, z);
      CodesBack(x, y, z);
      if |b| == 1 {
        assert b == [x];
      } else if |b| == 2 {
        assert b == [x, y];
      } else {
        DecodeEncoded(b[3..]);
        assert Encode(b)[4..] == Encode(b[3..]);
        assert b == [x, y, z] + b[3..];
      }
    }
  }

  lemma {:induction false} EncodeDecoded(s: string)
    requires AllCodes(s) && DecodeCodes(s).Some?
    ensures Encode(DecodeCodes(s).value) == s
  {
    hide Code, Sextet, First, Second, Third, Fourth, Byte0, Byte1, Byte2;
    if |s| >= 2 {
      var a, b := Sextet(s[0]), Sextet(s[1]);
      var c, d := if |s| > 2 then Sextet(s[2]) else 0, if |s| > 3 then Sextet(s[3]) else 0;
      Parted(a, b, c, d);
      SextetBack(s[0]);
      SextetBack(s[1]);
      if |s| == 2 {
        assert s == [s[0], s[1]];
      } else {
        SextetBack(s[2]);
        if |s| == 3 {
          assert s == [s[0], s[1], s[2]];
        } else {
          SextetBack(s[3]);
          EncodeDecoded(s[4..]);
          assert DecodeCodes(s).value[3..] == DecodeCodes(s[4..]).value;
          assert s == [s[0], s[1], s[2], s[3]] + s[4..];
        }
      }
    }
  }

  lemma {:induction false} BreaksOnly(s: string)
    requires AllCodes(s)
    ensures WithoutBreaks(s) == s
  {
    if s != "" {
      BreaksOnly(s[1..]);
    }
  }

  /** The decoder accepts exactly the encoder's strings, line breaks aside. */
  lemma DecodesTheEncoded(s: string, b: seq<Byte>)
    ensures Decode(s) == Some(b) <==> WithoutBreaks(s) == Encode(b)
  {
    hide WithoutBreaks, Encode, DecodeCodes;
    DecodeEncoded(b);
    if Decode(s) == Some(b) {
      EncodeDecoded(WithoutBreaks(s));
    }
  }

  // ----- the hash string -----

  datatype Params = Params(memory: nat, time: nat, threads: nat, salt: seq<Byte>, key: seq<Byte>)

  const MIN_MEMORY := 8 * 1024
  const MAX_MEMORY := 64 * 1024
  const MIN_TIME := 1
  const MAX_TIME := 10
  const MIN_THREADS := 1
  const MAX_THREADS := 4
  const MIN_BYTES := 16
  const MAX_BYTES := 64
  const MAX_ENCODED := 205
  const ARGON2_VERSION := 19
  const NAME := "argon2id"

  predicate InRange(p: Params) {
    && MIN_MEMORY <= p.memory <= MAX_MEMORY && MIN_TIME <= p.time <= MAX_TIME && MIN_THREADS <= p.threads <= MAX_THREADS
    && MIN_BYTES <= |p.salt| <= MAX_BYTES && MIN_BYTES <= |p.key| <= MAX_BYTES
  }

  function Costs(p: Params): string {
    "m=" + Print(p.memory) + "," + ("t=" + Print(p.time) + "," + ("p=" + Print(p.threads)))
  }

  function Format(p: Params): string {
    "" + "$" + (NAME + "$" + ("v=" + Print(ARGON2_VERSION) + "$" + (Costs(p) + "$" + (Encode(p.salt) + "$" + Encode(p.key)))))
  }

  /** strings.Split. */
  function Split(s: string, sep: char): (parts: seq<string>)
    ensures parts != []
    decreases |s|
  {
    var n := ChatGrammar.Find(s, sep, 0);
    if n == |s| then [s] else [s[..n]] + Split(s[n + 1..], sep)
  }

  function ParseField(field: string, prefix: string, limit: nat, lo: nat, hi: nat): Option<nat> {
    if !(prefix <= field) then None
    else
      var digits := field[|prefix|..];
      var n := ParseUint(digits, limit);
      if n.None? || Print(n.value) != digits || n.value < lo || n.value > hi then None else n
  }

  function ParseBytes(text: string): Option<seq<Byte>> {
    var b := Decode(text);
    if b.None? || |b.value| < MIN_BYTES || |b.value| > MAX_BYTES then None else b
  }

  function Parse(stored: string): Option<Params> {
    if |stored| > MAX_ENCODED then None
    else
      var parts := Split(stored, '$');
      if |parts| != 6 || parts[0] != "" || parts[1] != NAME || parts[2] != "v=" + Print(ARGON2_VERSION) then None
      else
        var fields := Split(parts[3], ',');
        if |fields| != 3 then None
        else
          var memory := ParseField(fields[0], "m=", 0x1_0000_0000, MIN_MEMORY, MAX_MEMORY);
          var time := ParseField(fields[1], "t=", 0x1_0000_0000, MIN_TIME, MAX_TIME);
          var threads := ParseField(fields[2], "p=", 0x100, MIN_THREADS, MAX_THREADS);
          var salt, key := ParseBytes(parts[4]), ParseBytes(parts[5]);
          if memory.None? || time.None? || threads.None? || salt.None? || key.None? then None
          else
            var p := Params(memory.value, time.value, threads.value, salt.value, key.value);
            if Format(p) != stored then None else Some(p)
  }

  lemma SplitOne(s: string, sep: char)
    requires sep !in s
    ensures Split(s, sep) == [s]
  {
    assert forall k :: 0 <= k < |s| ==> s[k] in s;
  }

  lemma SplitAfter(a: string, sep: string, b: string)
    requires |sep| == 1 && sep[0] !in a
    ensures Split(a + sep + b, sep[0]) == [a] + Split(b, sep[0])
  {
    var s := a + sep + b;
    assert s[|a|] == sep[0] && forall k :: 0 <= k < |a| ==> s[k] == a[k] && a[k] in a;
    assert ChatGrammar.Find(s, sep[0], 0) == |a| && s[..|a|] == a && s[|a| + 1..] == b;
  }

  /** Digits and base64 hold neither separator. */
  lemma NoSeparators(n: nat, b: seq<Byte>)
    ensures '$' !in Print(n) && ',' !in Print(n) && '$' !in Encode(b)
  {
    hide Print, Encode;
    Printed(n);
    EncodedCodes(b);
    forall c | c in Print(n) ensures c != '$' && c != ',' {
      var k :| 0 <= k < |Print(n)| && Print(n)[k] == c;
      assert IsDigit(Print(n)[k]);
    }
    forall c | c in Encode(b) ensures c != '$' {
      var k :| 0 <= k < |Encode(b)| && Encode(b)[k] == c;
      assert IsCode(Encode(b)[k]);
    }
  }

  lemma SplitCosts(p: Params)
    ensures Split(Costs(p), ',') == ["m=" + Print(p.memory), "t=" + Print(p.time), "p=" + Print(p.threads)]
    ensures '$' !in Costs(p)
  {
    hide Print, Encode, Split;
    NoSeparators(p.memory, []);
    NoSeparators(p.time, []);
    NoSeparators(p.threads, []);
    var t, m := "p=" + Print(p.threads), "t=" + Print(p.time);
    SplitOne(t, ',');
    SplitAfter(m, ",", t);
    SplitAfter("m=" + Print(p.memory), ",", m + "," + t);
    assert ["m=" + Print(p.memory)] + ([m] + [t]) == ["m=" + Print(p.memory), m, t];
  }

  lemma SplitFormat(p: Params)
    ensures Split(Format(p), '$') == ["", NAME, "v=" + Print(ARGON2_VERSION), Costs(p), Encode(p.salt), Encode(p.key)]
  {
    hide Print, Encode, Split, Costs;
    NoSeparators(ARGON2_VERSION, p.salt);
    NoSeparators(0, p.key);
    SplitCosts(p);
    var key, salt, version := Encode(p.key), Encode(p.salt), "v=" + Print(ARGON2_VERSION);
    SplitOne(key, '$');
    var four := salt + "$" + key;
    SplitAfter(salt, "$", key);
    SplitAfter(Costs(p), "$", four);
    SplitAfter(version, "$", Costs(p) + "$" + four);
    var two := version + "$" + (Costs(p) + "$" + four);
    SplitAfter(NAME, "$", two);
    SplitAfter("", "$", NAME + "$" + two);
    assert [""] + ([NAME] + ([version] + ([Costs(p)] + ([salt] + [key])))) == ["", NAME, version, Costs(p), salt, key];
  }

  lemma FieldBack(prefix: string, n: nat, limit: nat, lo: nat, hi: nat)
    requires lo <= n <= hi < limit
    ensures ParseField(prefix + Print(n), prefix, limit, lo, hi) == Some(n)
  {
    hide Print;
    Printed(n);
    assert (prefix + Print(n))[|prefix|..] == Print(n);
  }

  lemma BytesBack(b: seq<Byte>)
    requires MIN_BYTES <= |b| <= MAX_BYTES
    ensures ParseBytes(Encode(b)) == Some(b)
  {
    hide Encode, Decode;
    EncodedCodes(b);
    BreaksOnly(Encode(b));
    DecodesTheEncoded(Encode(b), b);
  }

  /** No string for parameters in range is longer than the limit. */
  lemma FormatFits(p: Params)
    requires InRange(p)
    ensures |Format(p)| <= MAX_ENCODED
  {
    hide Print, Encode;
    EncodedCodes(p.salt);
    EncodedCodes(p.key);
    assert Power(5) == 10 * Power(4) == 100000 by { Powers(); }
    Powers();
    PrintedSize(p.memory, 5, 100000);
    PrintedSize(p.time, 2, 100);
    PrintedSize(p.threads, 1, 10);
    PrintedSize(ARGON2_VERSION, 2, 100);
  }

  lemma Powers()
    ensures Power(1) == 10 && Power(2) == 100 && Power(4) == 10000 && Power(5) == 100000
  {
    assert Power(1) == 10 && Power(2) == 100;
    assert Power(3) == 1000 && Power(4) == 10000;
  }

  /** Parse accepts exactly the strings Format prints for parameters in range,
      and gives back those parameters. */
  lemma ParseIsFormat(stored: string, p: Params)
    ensures Parse(stored) == Some(p) <==> InRange(p) && Format(p) == stored
  {
    hide Print, Encode, Decode, Split, Format, Costs, ParseField, ParseBytes;
    if InRange(p) && Format(p) == stored {
      FormatFits(p);
      SplitFormat(p);
      SplitCosts(p);
      FieldBack("m=", p.memory, 0x1_0000_0000, MIN_MEMORY, MAX_MEMORY);
      FieldBack("t=", p.time, 0x1_0000_0000, MIN_TIME, MAX_TIME);
      FieldBack("p=", p.threads, 0x100, MIN_THREADS, MAX_THREADS);
      BytesBack(p.salt);
      BytesBack(p.key);
    }
    ParsedInRange(stored);
  }

  lemma ParsedInRange(stored: string)
    ensures Parse(stored).Some? ==> InRange(Parse(stored).value) && Format(Parse(stored).value) == stored
  {
    hide Print, Decode, Split, Format, Costs, ParseUint;
  }

  /** There is one spelling of each hash. */
  lemma OneSpelling(a: string, b: string)
    requires Parse(a).Some? && Parse(a) == Parse(b)
    ensures a == b
  {
    hide Parse, Format, InRange;
    ParseIsFormat(a, Parse(a).value);
    ParseIsFormat(b, Parse(b).value);
  }
}
