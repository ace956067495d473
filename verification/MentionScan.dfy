module MentionScan {
  /** Finding typed handles (internal/conversation/mentions.go, handleTokens):
      the parser marks what it keeps as typed, and handles are looked for inside
      each run of it. */

  import opened ChatGrammar
  import opened Mentions

  /** The first position from i on that cannot belong to a handle. */
  function HandleEnd(s: string, mask: seq<bool>, i: nat): (r: nat)
    requires i <= |s| == |mask|
    ensures i <= r <= |s| && forall k :: i <= k < r ==> mask[k] && HandleChar(s[k])
    decreases |s| - i
  {
    if i < |s| && mask[i] && HandleChar(s[i]) then HandleEnd(s, mask, i + 1) else i
  }

  /** A handle ends with a letter or a digit. */
  function Shrunk(s: string, first: nat, end: nat): (r: nat)
    requires first <= end <= |s|
    ensures first <= r <= end && (r > first ==> Alphanumeric(s[r - 1]))
    decreases end
  {
    if end > first && !Alphanumeric(s[end - 1]) then Shrunk(s, first, end - 1) else end
  }

  predicate Begins(cls: Classes, s: string, mask: seq<bool>, i: nat)
    requires i < |s| == |mask|
  {
    mask[i] && s[i] == '@' && MayFollow(cls, s, i)
  }

  function TokenAt(s: string, mask: seq<bool>, reserved: string -> bool, i: nat): seq<Token>
    requires i < |s| == |mask|
  {
    var last := Shrunk(s, i + 1, HandleEnd(s, mask, i + 1));
    if ValidHandle(s[i + 1..last], reserved) then [Token(i, last)] else []
  }

  /** The handles from i up to `end`. */
  function Scan(cls: Classes, s: string, mask: seq<bool>, reserved: string -> bool, i: nat, end: nat): seq<Token>
    requires |s| == |mask| && end <= |s|
    decreases |s| - i
  {
    if i >= end then []
    else if !Begins(cls, s, mask, i) then Scan(cls, s, mask, reserved, i + 1, end)
    else TokenAt(s, mask, reserved, i) + Scan(cls, s, mask, reserved, HandleEnd(s, mask, i + 1), end)
  }

  function TypedHandles(cls: Classes, s: string, reserved: string -> bool): seq<Token> {
    Scan(cls, s, Mask(cls, s, 0), reserved, 0, |s|)
  }

  /** What the scan finds are handles, in order. */
  lemma {:induction false} ScanFindsHandles(cls: Classes, s: string, reserved: string -> bool, i: nat)
    requires i <= |s|
    ensures Handles(cls, s, Scan(cls, s, Mask(cls, s, 0), reserved, i, |s|), i, reserved)
    decreases |s| - i
  {
    hide MayFollow, Mask;
    var mask := Mask(cls, s, 0);
    if i < |s| {
      if !Begins(cls, s, mask, i) {
        ScanFindsHandles(cls, s, reserved, i + 1);
      } else {
        var end := HandleEnd(s, mask, i + 1);
        ScanFindsHandles(cls, s, reserved, end);
        var last := Shrunk(s, i + 1, end);
        if ValidHandle(s[i + 1..last], reserved) {
          assert IsHandle(cls, s, Token(i, last), reserved);
        }
        hide IsHandle;
      }
    }
  }

  lemma TypedHandlesAreHandles(cls: Classes, s: string, reserved: string -> bool)
    ensures Handles(cls, s, TypedHandles(cls, s, reserved), 0, reserved)
  {
    ScanFindsHandles(cls, s, reserved, 0);
  }

  /** Every '@' that begins a handle is found: unless it lies inside the reach
      of an earlier one, it starts a token or names no valid handle. */
  lemma {:induction false} ScanMissesNothing(cls: Classes, s: string, mask: seq<bool>, reserved: string -> bool, i: nat, j: nat)
    requires i <= j < |s| == |mask| && Begins(cls, s, mask, j)
    ensures TokenAt(s, mask, reserved, j) == []
         || TokenAt(s, mask, reserved, j)[0] in Scan(cls, s, mask, reserved, i, |s|)
    decreases |s| - i
  {
    hide MayFollow, ValidHandle;
    if i < j {
      if !Begins(cls, s, mask, i) {
        ScanMissesNothing(cls, s, mask, reserved, i + 1, j);
      } else {
        var end := HandleEnd(s, mask, i + 1);
        assert j >= end by {
          assert !HandleChar('@');
        }
        ScanMissesNothing(cls, s, mask, reserved, end, j);
      }
    }
  }

  /** A run is scanned on its own. */
  lemma {:induction false} ScanSplits(cls: Classes, s: string, mask: seq<bool>, reserved: string -> bool, i: nat, end: nat)
    requires i <= end <= |s| == |mask| && (end < |s| ==> !mask[end])
    ensures Scan(cls, s, mask, reserved, i, |s|) == Scan(cls, s, mask, reserved, i, end) + Scan(cls, s, mask, reserved, end, |s|)
    decreases |s| - i
  {
    hide MayFollow, ValidHandle;
    if i < end {
      if !Begins(cls, s, mask, i) {
        ScanSplits(cls, s, mask, reserved, i + 1, end);
      } else {
        assert HandleEnd(s, mask, i + 1) <= end;
        ScanSplits(cls, s, mask, reserved, HandleEnd(s, mask, i + 1), end);
      }
    }
  }

  lemma MaskStep(cls: Classes, s: string, i: nat)
    requires i < |s|
    ensures Mask(cls, s, i)
         == seq(NextAt(cls, s, i) - i, _ => ConstructAt(cls, s, i).Literal()) + Mask(cls, s, NextAt(cls, s, i))
  {
    hide NextAt, ConstructAt;
  }

  method Mark(plain: array<bool>, i: nat, next: nat, literal: bool)
    requires i <= next <= plain.Length
    modifies plain
    ensures plain[..next] == old(plain[..i]) + seq(next - i, _ => literal)
  {
    var j := i;
    while j < next
      invariant i <= j <= next && plain[..i] == old(plain[..i])
      invariant forall k :: i <= k < j ==> plain[k] == literal
    {
      plain[j] := literal;
      j := j + 1;
    }
  }

  /** Which positions the parser keeps as typed, construct by construct. */
  method KeptAsTyped(cls: Classes, s: string) returns (plain: array<bool>)
    ensures fresh(plain) && plain.Length == |s| && plain[..] == Mask(cls, s, 0)
  {
    hide Mask, NextAt, ConstructAt;
    plain := new bool[|s|](_ => false);
    var i := 0;
    while i < |s|
      invariant i <= |s| && plain[..i] + Mask(cls, s, i) == Mask(cls, s, 0)
    {
      MaskStep(cls, s, i);
      var next, literal := NextAt(cls, s, i), ConstructAt(cls, s, i).Literal();
      Mark(plain, i, next, literal);
      i := next;
    }
    assert plain[..i] + Mask(cls, s, i) == plain[..];
  }

  lemma ScanSkips(cls: Classes, s: string, mask: seq<bool>, reserved: string -> bool, i: nat, end: nat)
    requires i < end <= |s| == |mask| && !Begins(cls, s, mask, i)
    ensures Scan(cls, s, mask, reserved, i, end) == Scan(cls, s, mask, reserved, i + 1, end)
  {
  }

  lemma ScanTakes(cls: Classes, s: string, mask: seq<bool>, reserved: string -> bool, i: nat, end: nat)
    requires i < end <= |s| == |mask| && Begins(cls, s, mask, i)
    ensures Scan(cls, s, mask, reserved, i, end)
         == TokenAt(s, mask, reserved, i) + Scan(cls, s, mask, reserved, HandleEnd(s, mask, i + 1), end)
  {
  }

  /** Extends a handle from i + 1 within its run, and takes punctuation off its end. */
  method HandleSpanAt(s: string, ghost mask: seq<bool>, i: nat, end: nat) returns (last: nat, next: nat)
    requires i < end <= |s| == |mask| && (end < |s| ==> !mask[end]) && forall k :: i < k < end ==> mask[k]
    ensures next == HandleEnd(s, mask, i + 1) <= end && last == Shrunk(s, i + 1, next)
  {
    last := i + 1;
    while last < end && HandleChar(s[last])
      invariant i + 1 <= last <= end && HandleEnd(s, mask, i + 1) == HandleEnd(s, mask, last)
    {
      last := last + 1;
    }
    next := last;
    while last > i + 1 && !Alphanumeric(s[last - 1])
      invariant i + 1 <= last <= next && Shrunk(s, i + 1, next) == Shrunk(s, i + 1, last)
    {
      last := last - 1;
    }
  }

  /** handleTokens: the handles inside one run. */
  method HandlesInRun(cls: Classes, s: string, ghost mask: seq<bool>, reserved: string -> bool, start: nat, end: nat)
    returns (tokens: seq<Token>)
    requires start <= end <= |s| == |mask| && (end < |s| ==> !mask[end])
    requires forall k :: start <= k < end ==> mask[k]
    ensures tokens == Scan(cls, s, mask, reserved, start, end)
  {
    hide Scan, MayFollow, ValidHandle, HandleEnd, Shrunk;
    tokens := [];
    var i := start;
    while i < end
      invariant start <= i <= end
      invariant tokens + Scan(cls, s, mask, reserved, i, end) == Scan(cls, s, mask, reserved, start, end)
    {
      if s[i] != '@' || !MayFollow(cls, s, i) {
        ScanSkips(cls, s, mask, reserved, i, end);
        i := i + 1;
        continue;
      }
      ScanTakes(cls, s, mask, reserved, i, end);
      var last, next := HandleSpanAt(s, mask, i, end);
      ghost var found := tokens;
      if ValidHandle(s[i + 1..last], reserved) {
        tokens := tokens + [Token(i, last)];
      }
      assert tokens == found + TokenAt(s, mask, reserved, i);
      i := next;
    }
    assert Scan(cls, s, mask, reserved, i, end) == [] by { NothingLeft(cls, s, mask, reserved, i); }
  }

  lemma NothingLeft(cls: Classes, s: string, mask: seq<bool>, reserved: string -> bool, i: nat)
    requires i <= |s| == |mask|
    ensures Scan(cls, s, mask, reserved, i, i) == []
  {
  }

  /** The handles of a line's content, run by run. */
  method FindHandles(cls: Classes, s: string, reserved: string -> bool) returns (tokens: seq<Token>)
    ensures tokens == TypedHandles(cls, s, reserved)
  {
    var plain := KeptAsTyped(cls, s);
    ghost var mask := plain[..];
    tokens := [];
    var i := 0;
    while i < |s|
      invariant i <= |s| && plain[..] == mask
      invariant tokens + Scan(cls, s, mask, reserved, i, |s|) == Scan(cls, s, mask, reserved, 0, |s|)
    {
      if !plain[i] {
        i := i + 1;
        continue;
      }
      var start := i;
      while i < |s| && plain[i]
        invariant start <= i <= |s| && forall k :: start <= k < i ==> mask[k]
      {
        i := i + 1;
      }
      ScanSplits(cls, s, mask, reserved, start, i);
      var more := HandlesInRun(cls, s, mask, reserved, start, i);
      tokens := tokens + more;
    }
  }
}
