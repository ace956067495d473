/** replaceHandles as written (internal/conversation/mentions.go): one pass
    over the body's handles with a builder and two offsets, the end of the
    last handle and the start of the current line's content in the builder.
    It produces exactly the line-by-line conversion of MentionBody. */
module MentionRewrite {
  import opened Common
  import opened ChatGrammar
  import opened ChatBlocks
  import opened MentionReading
  import opened Mentions
  import opened MentionScan
  import opened MentionBody
  import ChatParser
  import P = Payload

  /** A handle of a body, and where its line's content starts. */
  datatype Place = Place(start: nat, end: nat, line: nat)

  /** The builder's text, how much of the body it accounts for, and where the
      current line's content starts in it. */
  datatype Spot = Spot(start: nat, line: nat, text: string)

  predicate Fits(body: string, p: Place, spot: Spot) {
    && spot.start <= p.start < p.end <= |body| && p.line <= p.start && spot.line <= |spot.text|
  }

  function LineStart(p: Place, spot: Spot): nat {
    if p.line >= spot.start then |spot.text| + p.line - spot.start else spot.line
  }

  /** One handle dealt with. */
  function Put(cls: Classes, body: string, p: Place, lookup: string -> Option<P.ID>, spot: Spot): (next: Spot)
    requires Fits(body, p, spot)
    ensures next.start == p.end && next.line <= |next.text|
  {
    var line, text := LineStart(p, spot), spot.text + body[spot.start..p.start];
    match lookup(body[p.start + 1..p.end])
    case None => Spot(p.end, line, text + body[p.start..p.end])
    case Some(id) =>
      var r := text + ReferenceText(id);
      if p.end < |body| && body[p.end] == '_'
         && !ItalicClosesAt(cls, r[line..] + body[p.end..Find(body, '\n', p.end)], |r| - line)
      then Spot(p.end, line, r + "\\") else Spot(p.end, line, r)
  }

  predicate AllFit(body: string, places: seq<Place>, start: nat) {
    places == [] || (start <= places[0].start < places[0].end <= |body| && places[0].line <= places[0].start
                     && AllFit(body, places[1..], places[0].end))
  }

  function Replaced(cls: Classes, body: string, places: seq<Place>, lookup: string -> Option<P.ID>, spot: Spot): string
    requires AllFit(body, places, spot.start) && spot.start <= |body| && spot.line <= |spot.text|
    decreases |places|
  {
    if places == [] then spot.text + body[spot.start..]
    else Replaced(cls, body, places[1..], lookup, Put(cls, body, places[0], lookup, spot))
  }

  lemma ReplacedNext(cls: Classes, body: string, places: seq<Place>, lookup: string -> Option<P.ID>, spot: Spot)
    requires places != [] && AllFit(body, places, spot.start) && spot.start <= |body| && spot.line <= |spot.text|
    ensures Fits(body, places[0], spot) && AllFit(body, places[1..], places[0].end)
    ensures Replaced(cls, body, places, lookup, spot)
         == Replaced(cls, body, places[1..], lookup, Put(cls, body, places[0], lookup, spot))
  {
    hide Put;
  }

  /** replaceHandles. */
  method ReplaceHandles(cls: Classes, body: string, tokens: seq<Place>, lookup: string -> Option<P.ID>) returns (converted: string)
    requires AllFit(body, tokens, 0)
    ensures converted == Replaced(cls, body, tokens, lookup, Spot(0, 0, ""))
  {
    hide Replaced, ItalicClosesAt, ReferenceText;
    var text, k := "", 0;
    var start: nat, line: nat := 0, 0;
    assert tokens[0..] == tokens;
    while k < |tokens|
      invariant k <= |tokens| && start <= |body| && line <= |text| && AllFit(body, tokens[k..], start)
      invariant Replaced(cls, body, tokens, lookup, Spot(0, 0, "")) == Replaced(cls, body, tokens[k..], lookup, Spot(start, line, text))
    {
      var token := tokens[k];
      ghost var spot := Spot(start, line, text);
      assert tokens[k..][0] == token && tokens[k..][1..] == tokens[k + 1..];
      ReplacedNext(cls, body, tokens[k..], lookup, spot);
      if token.line >= start {
        line := |text| + token.line - start;
      }
      text := text + body[start..token.start];
      start := token.end;
      var found := lookup(body[token.start + 1..token.end]);
      if found.None? {
        text := text + body[token.start..token.end];
      } else {
        text := text + ReferenceText(found.value);
        if token.end < |body| && body[token.end] == '_' {
          var end := Find(body, '\n', token.end);
          var content := text[line..] + body[token.end..end];
          var closes := ChatParser.ClosesItalic(cls, content, |text| - line);
          if !closes {
            text := text + "\\";
          }
        }
      }
      assert Spot(start, line, text) == Put(cls, body, token, lookup, spot);
      k := k + 1;
    }
    assert tokens[k..] == [];
    converted := text + body[start..];
    assert Replaced(cls, body, [], lookup, Spot(start, line, text)) == converted by { ReplacedNone(cls, body, lookup, Spot(start, line, text)); }
  }

  lemma ReplacedNone(cls: Classes, body: string, lookup: string -> Option<P.ID>, spot: Spot)
    requires spot.start <= |body| && spot.line <= |spot.text|
    ensures Replaced(cls, body, [], lookup, spot) == spot.text + body[spot.start..]
  {
  }

  // ----- the handles of a body -----

  /** Where line i starts. */
  function Offset(lines: seq<string>, i: nat): nat
    requires i <= |lines|
  {
    if i == 0 then 0 else Offset(lines, i - 1) + |lines[i - 1]| + 1
  }

  function Placed(tokens: seq<Token>, line: nat): seq<Place> {
    seq(|tokens|, k requires 0 <= k < |tokens| => Place(line + tokens[k].start, line + tokens[k].end, line))
  }

  /** The handles from line i on, none of them in code. */
  function Places(cls: Classes, lines: seq<string>, i: nat, dir: Directory): seq<Place>
    requires i <= |lines|
    decreases |lines| - i
  {
    if i == |lines| then []
    else if OpensCode(lines, i) then Places(cls, lines, FirstFence(lines, i + 1) + 1, dir)
    else Placed(TypedHandles(cls, Content(lines[i]), dir.reserved), Offset(lines, i) + Marker(lines[i]))
         + Places(cls, lines, i + 1, dir)
  }

  lemma OffsetStarts(lines: seq<string>)
    ensures Offset(lines, 0) == 0
  {
  }

  lemma OffsetNext(lines: seq<string>, i: nat)
    requires i < |lines|
    ensures Offset(lines, i + 1) == Offset(lines, i) + |lines[i]| + 1
  {
  }

  method Offsets(lines: seq<string>) returns (offsets: array<nat>)
    ensures fresh(offsets) && offsets.Length == |lines| + 1
    ensures forall k :: 0 <= k <= |lines| ==> offsets[k] == Offset(lines, k)
  {
    hide Offset;
    offsets := new nat[|lines| + 1](_ => 0);
    var i := 0;
    OffsetStarts(lines);
    while i < |lines|
      invariant i <= |lines| && forall k :: 0 <= k <= i ==> offsets[k] == Offset(lines, k)
    {
      OffsetNext(lines, i);
      offsets[i + 1] := offsets[i] + |lines[i]| + 1;
      i := i + 1;
    }
  }

  method PlaceAll(tokens: seq<Token>, line: nat) returns (places: seq<Place>)
    ensures places == Placed(tokens, line)
  {
    places := [];
    var k := 0;
    while k < |tokens|
      invariant k <= |tokens| && places == Placed(tokens[..k], line)
    {
      places := places + [Place(line + tokens[k].start, line + tokens[k].end, line)];
      k := k + 1;
    }
    assert tokens[..k] == tokens;
  }

  lemma PlacesStep(cls: Classes, lines: seq<string>, i: nat, dir: Directory)
    requires i < |lines|
    ensures Places(cls, lines, i, dir)
         == if OpensCode(lines, i) then Places(cls, lines, FirstFence(lines, i + 1) + 1, dir)
            else Placed(TypedHandles(cls, Content(lines[i]), dir.reserved), Offset(lines, i) + Marker(lines[i]))
                 + Places(cls, lines, i + 1, dir)
  {
    hide TypedHandles, FenceOpening, FirstFence, Placed, Offset;
  }

  /** Who a handle names has no say in where handles are. */
  lemma {:induction false} PlacesIgnoreLookup(cls: Classes, lines: seq<string>, i: nat, dir: Directory, other: Directory)
    requires i <= |lines| && dir.reserved == other.reserved
    ensures Places(cls, lines, i, dir) == Places(cls, lines, i, other)
    decreases |lines| - i
  {
    hide FenceOpening, TypedHandles, Content, Placed, Offset, Marker;
    if i < |lines| {
      hide Places;
      PlacesStep(cls, lines, i, dir);
      PlacesStep(cls, lines, i, other);
      if OpensCode(lines, i) {
        PlacesIgnoreLookup(cls, lines, FirstFence(lines, i + 1) + 1, dir, other);
      } else {
        PlacesIgnoreLookup(cls, lines, i + 1, dir, other);
      }
    }
  }

  /** handleTokens: the handles of every line the parser does not take for code. */
  method HandleTokens(cls: Classes, body: string, dir: Directory) returns (tokens: seq<Place>)
    ensures tokens == Places(cls, Lines(body), 0, dir)
  {
    hide TypedHandles, FenceOpening, FirstFence, Places, Placed, Offset, Lines, Content;
    var lines := Lines(body);
    var closing := ChatParser.ClosingTable(lines);
    var offsets := Offsets(lines);
    tokens := [];
    var i := 0;
    while i < |lines|
      invariant i <= |lines| && tokens + Places(cls, lines, i, dir) == Places(cls, lines, 0, dir)
      invariant forall k :: 0 <= k <= |lines| ==> closing[k] == FirstFence(lines, k)
      invariant forall k :: 0 <= k <= |lines| ==> offsets[k] == Offset(lines, k)
    {
      PlacesStep(cls, lines, i, dir);
      var end := closing[i + 1];
      assert end == FirstFence(lines, i + 1);
      if FenceOpening(lines[i]).Some? && end < |lines| {
        i := end + 1;
      } else {
        var found := FindHandles(cls, Content(lines[i]), dir.reserved);
        var places := PlaceAll(found, offsets[i] + Marker(lines[i]));
        tokens := tokens + places;
        i := i + 1;
      }
    }
    assert Places(cls, lines, i, dir) == [] by { NoPlacesLeft(cls, lines, dir); }
  }

  lemma NoPlacesLeft(cls: Classes, lines: seq<string>, dir: Directory)
    ensures Places(cls, lines, |lines|, dir) == []
  {
  }

  // ----- one pass is line by line -----

  /** Line content c stands at c0 in the body and ends its line. */
  ghost predicate StandsAt(body: string, c: string, c0: nat) {
    && c0 + |c| <= |body| && body[c0..c0 + |c|] == c && '\n' !in c
    && (c0 + |c| < |body| ==> body[c0 + |c|] == '\n')
  }

  lemma LineEnds(body: string, c: string, c0: nat, i: nat)
    requires StandsAt(body, c, c0) && i <= |c|
    ensures Find(body, '\n', c0 + i) == c0 + |c| && body[c0 + i..c0 + |c|] == c[i..]
  {
    forall k | c0 + i <= k < c0 + |c| ensures body[k] != '\n' {
      assert body[c0..c0 + |c|][k - c0] == c[k - c0] && c[k - c0] in c;
    }
  }

  lemma Piece(body: string, c: string, c0: nat, i: nat, j: nat)
    requires StandsAt(body, c, c0) && i <= j <= |c|
    ensures body[c0 + i..c0 + j] == c[i..j]
  {
    var piece := body[c0 + i..c0 + j];
    forall k | 0 <= k < |piece| ensures piece[k] == c[i..j][k] {
      assert piece[k] == body[c0..c0 + |c|][i + k];
    }
  }

  /** Within a line: the builder holds `pre`, then `done`, which accounts for
      the content up to `from`. */
  ghost predicate InLine(spot: Spot, c0: nat, pre: string, from: nat, done: string) {
    && spot.start == c0 + from && spot.text == pre + done
    && (if from == 0 then done == "" && spot.line <= |spot.text| else spot.line == |pre|)
  }

  /** Put does to the body what After does to the line. */
  lemma PutInLine(cls: Classes, body: string, c: string, c0: nat, t: Token, lookup: string -> Option<P.ID>,
                  spot: Spot, pre: string, from: nat, done: string)
    requires StandsAt(body, c, c0) && InLine(spot, c0, pre, from, done) && from <= t.start < t.end <= |c|
    ensures Fits(body, Place(c0 + t.start, c0 + t.end, c0), spot)
    ensures InLine(Put(cls, body, Place(c0 + t.start, c0 + t.end, c0), lookup, spot), c0, pre, t.end,
                   After(cls, c, t, lookup, from, done))
  {
    hide ItalicClosesAt, ReferenceText, Find;
    var p := Place(c0 + t.start, c0 + t.end, c0);
    Piece(body, c, c0, from, t.start);
    Piece(body, c, c0, t.start + 1, t.end);
    Piece(body, c, c0, t.start, t.end);
    assert LineStart(p, spot) == |pre|;
    assert spot.text + body[spot.start..p.start] == pre + (done + c[from..t.start]) by {
      assert (pre + done) + c[from..t.start] == pre + (done + c[from..t.start]);
    }
    match lookup(c[t.start + 1..t.end])
    case None =>
      assert (pre + (done + c[from..t.start])) + c[t.start..t.end] == pre + (done + c[from..t.end]) by {
        assert c[from..t.start] + c[t.start..t.end] == c[from..t.end];
      }
    case Some(id) =>
      var d := WithReference(c, from, done, t, id);
      var r := spot.text + body[spot.start..p.start] + ReferenceText(id);
      assert r == pre + d by { assert (pre + (done + c[from..t.start])) + ReferenceText(id) == pre + d; }
      assert r[|pre|..] == d;
      LineEnds(body, c, c0, t.end);
      UnderscoreThere(body, c, c0, t);
      assert r + "\\" == pre + (d + "\\");
  }

  lemma UnderscoreThere(body: string, c: string, c0: nat, t: Token)
    requires StandsAt(body, c, c0) && t.end <= |c|
    ensures c0 + t.end < |body| && body[c0 + t.end] == '_' <==> t.end < |c| && c[t.end] == '_'
  {
    if t.end < |c| {
      assert body[c0..c0 + |c|][t.end] == c[t.end];
    }
  }

  /** A whole line's handles: the pass arrives at what Convert says. */
  lemma {:induction false} ReplacedInLine(cls: Classes, body: string, c: string, c0: nat, tokens: seq<Token>, rest: seq<Place>,
                                          lookup: string -> Option<P.ID>, spot: Spot, pre: string, from: nat, done: string,
                                          reserved: string -> bool) returns (end: Spot)
    requires StandsAt(body, c, c0) && from <= |c| && Handles(cls, c, tokens, from, reserved) && InLine(spot, c0, pre, from, done)
    requires AllFit(body, rest, c0 + |c|) && spot.start <= |body| && spot.line <= |spot.text|
    ensures AllFit(body, Placed(tokens, c0) + rest, spot.start)
    ensures end.start <= c0 + |c| && end.line <= |end.text| && AllFit(body, rest, end.start)
    ensures Replaced(cls, body, Placed(tokens, c0) + rest, lookup, spot) == Replaced(cls, body, rest, lookup, end)
    ensures end.text + body[end.start..c0 + |c|] == pre + Convert(cls, c, tokens, lookup, from, done).text
    decreases |tokens|
  {
    hide Replaced, Put, After, Convert, Handles, IsHandle, AllFit, StandsAt;
    StandsBounds(body, c, c0);
    if tokens == [] {
      end := spot;
      assert Placed(tokens, c0) + rest == rest;
      Piece(body, c, c0, from, |c|);
      ConvertRest(cls, c, lookup, from, done);
      assert c[from..|c|] == c[from..] && (pre + done) + c[from..] == pre + (done + c[from..]);
      FitEarlier(body, rest, c0 + |c|, spot.start);
    } else {
      var t := tokens[0];
      var p := Place(c0 + t.start, c0 + t.end, c0);
      TailHandles(cls, c, tokens, from, reserved);
      ConvertStep(cls, c, tokens, lookup, from, done);
      PutInLine(cls, body, c, c0, t, lookup, spot, pre, from, done);
      end := ReplacedInLine(cls, body, c, c0, tokens[1..], rest, lookup, Put(cls, body, p, lookup, spot), pre, t.end,
                            After(cls, c, t, lookup, from, done), reserved);
      PlacedFirst(tokens, c0, rest);
      FitsFirst(body, Placed(tokens, c0) + rest, spot.start);
      ReplacedNext(cls, body, Placed(tokens, c0) + rest, lookup, spot);
    }
  }

  lemma StandsBounds(body: string, c: string, c0: nat)
    requires StandsAt(body, c, c0)
    ensures c0 + |c| <= |body|
  {
  }

  lemma PlacedFirst(tokens: seq<Token>, c0: nat, rest: seq<Place>)
    requires tokens != []
    ensures var all := Placed(tokens, c0) + rest;
            && all[0] == Place(c0 + tokens[0].start, c0 + tokens[0].end, c0)
            && all[1..] == Placed(tokens[1..], c0) + rest
  {
  }

  lemma FitsFirst(body: string, places: seq<Place>, start: nat)
    requires places != [] && start <= places[0].start < places[0].end <= |body| && places[0].line <= places[0].start
    requires AllFit(body, places[1..], places[0].end)
    ensures AllFit(body, places, start)
  {
  }

  lemma FitEarlier(body: string, places: seq<Place>, start: nat, earlier: nat)
    requires AllFit(body, places, start) && earlier <= start
    ensures AllFit(body, places, earlier)
  {
  }

  /** Before a line's first handle it does not matter how much of the body the
      builder has caught up with. */
  lemma CatchUp(cls: Classes, body: string, places: seq<Place>, lookup: string -> Option<P.ID>, spot: Spot, to: nat)
    requires spot.start <= to <= |body| && spot.line <= |spot.text| && AllFit(body, places, to)
    requires places != [] ==> to <= places[0].line
    ensures AllFit(body, places, spot.start)
    ensures Replaced(cls, body, places, lookup, spot)
         == Replaced(cls, body, places, lookup, Spot(to, spot.line, spot.text + body[spot.start..to]))
  {
    hide ItalicClosesAt, ReferenceText, Find;
    FitEarlier(body, places, to, spot.start);
    var caught := Spot(to, spot.line, spot.text + body[spot.start..to]);
    if places == [] {
      assert (spot.text + body[spot.start..to]) + body[to..] == spot.text + body[spot.start..] by {
        assert body[spot.start..to] + body[to..] == body[spot.start..];
      }
    } else {
      var p := places[0];
      assert LineStart(p, spot) == LineStart(p, caught);
      assert caught.text + body[to..p.start] == spot.text + body[spot.start..p.start] by {
        assert body[spot.start..to] + body[to..p.start] == body[spot.start..p.start];
      }
      assert Put(cls, body, p, lookup, spot) == Put(cls, body, p, lookup, caught);
      hide Put;
    }
  }

  // ----- where the lines stand -----

  lemma {:induction false} BodyFrom(body: string, i: nat)
    requires i < |Lines(body)|
    ensures Offset(Lines(body), i) <= |body| && body[Offset(Lines(body), i)..] == Join(Lines(body)[i..])
  {
    hide Lines;
    var lines := Lines(body);
    if i == 0 {
      JoinLines(body);
      assert lines[0..] == lines && body[0..] == body;
    } else {
      BodyFrom(body, i - 1);
      var o := Offset(lines, i - 1);
      var tail := lines[i - 1..];
      assert tail[0] == lines[i - 1] && tail[1..] == lines[i..];
      assert body[o..] == lines[i - 1] + "\n" + Join(lines[i..]);
      assert body[o + |lines[i - 1]| + 1..] == body[o..][|lines[i - 1]| + 1..];
    }
  }

  lemma LineStands(body: string, i: nat)
    requires i < |Lines(body)|
    ensures var lines := Lines(body);
            var o := Offset(lines, i);
            && StandsAt(body, Content(lines[i]), o + Marker(lines[i]))
            && o + |lines[i]| <= |body| && body[o..o + Marker(lines[i])] == lines[i][..Marker(lines[i])]
            && (i + 1 < |lines| <==> o + |lines[i]| < |body|)
  {
    hide Lines, Offset;
    var lines := Lines(body);
    var line, o := lines[i], Offset(lines, i);
    LinesHaveNoBreak(body);
    BodyFrom(body, i);
    var tail, rest := lines[i..], body[o..];
    assert tail[0] == line;
    if i + 1 < |lines| {
      assert rest == line + "\n" + Join(tail[1..]);
      assert body[o + |line|] == rest[|line|] == '\n';
    } else {
      assert rest == line;
    }
    assert line == rest[..|line|] == body[o..o + |line|];
    var m, c := Marker(line), Content(line);
    assert body[o + m..o + |line|] == body[o..o + |line|][m..];
    assert body[o..o + m] == body[o..o + |line|][..m];
    assert forall x :: x in c ==> x in line;
  }

  // ----- the pass over the whole body -----

  lemma {:induction false} PlacedFit(cls: Classes, body: string, c: string, c0: nat, tokens: seq<Token>, rest: seq<Place>,
                                     from: nat, reserved: string -> bool)
    requires c0 + |c| <= |body| && from <= |c| && Handles(cls, c, tokens, from, reserved) && AllFit(body, rest, c0 + |c|)
    ensures AllFit(body, Placed(tokens, c0) + rest, c0 + from)
    decreases |tokens|
  {
    hide Handles, IsHandle, AllFit;
    if tokens == [] {
      assert Placed(tokens, c0) + rest == rest;
      FitEarlier(body, rest, c0 + |c|, c0 + from);
    } else {
      TailHandles(cls, c, tokens, from, reserved);
      PlacedFit(cls, body, c, c0, tokens[1..], rest, tokens[0].end, reserved);
      PlacedFirst(tokens, c0, rest);
      FitsFirst(body, Placed(tokens, c0) + rest, c0 + from);
    }
  }

  lemma {:induction false} OffsetsAscend(lines: seq<string>, i: nat, j: nat)
    requires i <= j <= |lines|
    ensures Offset(lines, i) <= Offset(lines, j)
    decreases j - i
  {
    if i < j {
      OffsetsAscend(lines, i, j - 1);
    }
  }

  /** The handles from line i on come in order, none before that line's content. */
  lemma {:induction false} PlacesFit(cls: Classes, body: string, i: nat, dir: Directory)
    requires i <= |Lines(body)|
    ensures var lines := Lines(body);
            var places, o := Places(cls, lines, i, dir), Offset(lines, i);
            && AllFit(body, places, o)
            && (places != [] ==> o <= places[0].line)
            && (places != [] && i < |lines| && !OpensCode(lines, i) ==> o + Marker(lines[i]) <= places[0].line)
    decreases |Lines(body)| - i
  {
    hide Lines, Offset, AllFit, TypedHandles, FenceOpening, FirstFence, Handles, StandsAt, Content, Places;
    var lines := Lines(body);
    if i == |lines| {
      NoPlacesLeft(cls, lines, dir);
      NothingFits(body, Offset(lines, i));
    } else {
      PlacesStep(cls, lines, i, dir);
      var o := Offset(lines, i);
      if OpensCode(lines, i) {
        var next := FirstFence(lines, i + 1) + 1;
        PlacesFit(cls, body, next, dir);
        OffsetsAscend(lines, i, next);
        FitEarlier(body, Places(cls, lines, next, dir), Offset(lines, next), o);
      } else {
        var c, c0 := Content(lines[i]), o + Marker(lines[i]);
        PlacesFit(cls, body, i + 1, dir);
        OffsetNext(lines, i);
        LineStands(body, i);
        StandsBounds(body, c, c0);
        ContentLength(lines[i]);
        TypedHandlesAreHandles(cls, c, dir.reserved);
        var tokens, rest := TypedHandles(cls, c, dir.reserved), Places(cls, lines, i + 1, dir);
        FitEarlier(body, rest, Offset(lines, i + 1), c0 + |c|);
        PlacedFit(cls, body, c, c0, tokens, rest, 0, dir.reserved);
        FitEarlier(body, Placed(tokens, c0) + rest, c0, o);
        if tokens != [] {
          PlacedFirst(tokens, c0, rest);
        }
      }
    }
  }

  lemma NothingFits(body: string, start: nat)
    ensures AllFit(body, [], start)
  {
  }

  lemma ContentLength(line: string)
    ensures |Content(line)| + Marker(line) == |line|
  {
  }

  lemma {:induction false} JoinAppend(a: seq<string>, b: seq<string>)
    requires a != [] && b != []
    ensures Join(a + b) == Join(a) + "\n" + Join(b)
  {
    if |a| > 1 {
      JoinAppend(a[1..], b);
      assert (a + b)[1..] == a[1..] + b;
    } else {
      assert (a + b)[1..] == b;
    }
  }

  /** Code, and the line break after it, pass unchanged. */
  lemma CodePasses(body: string, i: nat, next: nat)
    requires i < next < |Lines(body)|
    ensures var lines := Lines(body);
            Offset(lines, i) <= Offset(lines, next) <= |body|
            && body[Offset(lines, i)..Offset(lines, next)] == Join(lines[i..next]) + "\n"
  {
    hide Lines, Offset, Join;
    var lines := Lines(body);
    BodyFrom(body, i);
    BodyFrom(body, next);
    OffsetsAscend(lines, i, next);
    assert lines[i..] == lines[i..next] + lines[next..];
    JoinAppend(lines[i..next], lines[next..]);
    var o, p := Offset(lines, i), Offset(lines, next);
    var code, rest := Join(lines[i..next]) + "\n", Join(lines[next..]);
    assert body[o..] == code + rest && |body[o..]| == |code| + |rest| && |rest| == |body| - p;
    assert body[o..p] == body[o..][..p - o];
  }

  lemma ConvertStepLines(cls: Classes, lines: seq<string>, i: nat, dir: Directory)
    requires i < |lines|
    ensures ConvertLines(cls, lines, i, dir)
         == if OpensCode(lines, i) then
              lines[i..FirstFence(lines, i + 1) + 1] + ConvertLines(cls, lines, FirstFence(lines, i + 1) + 1, dir)
            else [ConvertLine(cls, lines[i], dir)] + ConvertLines(cls, lines, i + 1, dir)
  {
    hide ConvertLine, FenceOpening, FirstFence;
  }

  /** A text or quote line's handles come first among those from it on. */
  lemma LineFit(cls: Classes, body: string, i: nat, dir: Directory)
    requires i < |Lines(body)| && !OpensCode(Lines(body), i)
    ensures var lines := Lines(body);
            var line, o := lines[i], Offset(lines, i);
            var c, c0 := Content(line), o + Marker(line);
            var tokens, rest := TypedHandles(cls, c, dir.reserved), Places(cls, lines, i + 1, dir);
            && StandsAt(body, c, c0) && c0 + |c| == o + |line| <= |body| && body[o..c0] == line[..Marker(line)]
            && Handles(cls, c, tokens, 0, dir.reserved) && AllFit(body, rest, c0 + |c|)
            && Places(cls, lines, i, dir) == Placed(tokens, c0) + rest && AllFit(body, Placed(tokens, c0) + rest, c0)
            && (Placed(tokens, c0) + rest != [] ==> c0 <= (Placed(tokens, c0) + rest)[0].line)
  {
    hide *;
    var lines := Lines(body);
    var o, c := Offset(lines, i), Content(lines[i]);
    var c0 := o + Marker(lines[i]);
    LineStands(body, i);
    StandsBounds(body, c, c0);
    ContentLength(lines[i]);
    PlacesStep(cls, lines, i, dir);
    PlacesFit(cls, body, i, dir);
    PlacesFit(cls, body, i + 1, dir);
    OffsetNext(lines, i);
    TypedHandlesAreHandles(cls, c, dir.reserved);
    var tokens, rest := TypedHandles(cls, c, dir.reserved), Places(cls, lines, i + 1, dir);
    FitEarlier(body, rest, Offset(lines, i + 1), c0 + |c|);
    PlacedFit(cls, body, c, c0, tokens, rest, 0, dir.reserved);
  }

  /** One text or quote line: the pass leaves behind its converted form. */
  lemma ReplacedLine(cls: Classes, body: string, i: nat, dir: Directory, spot: Spot, pre: string) returns (end: Spot)
    requires i < |Lines(body)| && !OpensCode(Lines(body), i)
    requires spot.start <= Offset(Lines(body), i) <= |body| && spot.line <= |spot.text|
    requires spot.text + body[spot.start..Offset(Lines(body), i)] == pre
    ensures var lines := Lines(body);
            var stop := Offset(lines, i) + |lines[i]|;
            && AllFit(body, Places(cls, lines, i, dir), spot.start)
            && end.start <= stop <= |body| && end.line <= |end.text| && AllFit(body, Places(cls, lines, i + 1, dir), end.start)
            && Replaced(cls, body, Places(cls, lines, i, dir), dir.lookup, spot)
                 == Replaced(cls, body, Places(cls, lines, i + 1, dir), dir.lookup, end)
            && end.text + body[end.start..stop] == pre + ConvertLine(cls, lines[i], dir)
  {
    hide *;
    var lines := Lines(body);
    var line, o := lines[i], Offset(lines, i);
    var c, c0 := Content(line), o + Marker(line);
    var tokens, rest := TypedHandles(cls, c, dir.reserved), Places(cls, lines, i + 1, dir);
    LineFit(cls, body, i, dir);
    CatchUp(cls, body, Placed(tokens, c0) + rest, dir.lookup, spot, c0);
    var marked := pre + line[..Marker(line)];
    Extend(body, spot, o, c0);
    var caught := Spot(c0, spot.line, marked);
    assert InLine(caught, c0, marked, 0, "") by { AtLineStart(caught, c0, marked); }
    end := ReplacedInLine(cls, body, c, c0, tokens, rest, dir.lookup, caught, marked, 0, "", dir.reserved);
    LineIs(cls, line, dir);
    ContentIs(cls, c, dir);
    Reassociated(pre, line[..Marker(line)], ConvertContent(cls, c, dir).text);
  }

  lemma AtLineStart(spot: Spot, c0: nat, pre: string)
    requires spot.start == c0 && spot.text == pre && spot.line <= |pre|
    ensures InLine(spot, c0, pre, 0, "")
  {
    assert pre + "" == pre;
  }

  lemma Reassociated(a: string, b: string, c: string)
    ensures (a + b) + c == a + (b + c)
  {
  }

  lemma ContentIs(cls: Classes, c: string, dir: Directory)
    ensures ConvertContent(cls, c, dir) == Convert(cls, c, TypedHandles(cls, c, dir.reserved), dir.lookup, 0, "")
  {
  }

  lemma {:induction false} ReplacedFrom(cls: Classes, body: string, i: nat, dir: Directory, spot: Spot, pre: string)
    requires i < |Lines(body)|
    requires spot.start <= Offset(Lines(body), i) <= |body| && spot.line <= |spot.text|
    requires spot.text + body[spot.start..Offset(Lines(body), i)] == pre
    ensures var lines := Lines(body);
            && AllFit(body, Places(cls, lines, i, dir), spot.start)
            && Replaced(cls, body, Places(cls, lines, i, dir), dir.lookup, spot) == pre + Join(ConvertLines(cls, lines, i, dir))
    decreases |Lines(body)| - i
  {
    hide *;
    var lines := Lines(body);
    var o := Offset(lines, i);
    PlacesStep(cls, lines, i, dir);
    ConvertStepLines(cls, lines, i, dir);
    if OpensCode(lines, i) {
      var next := FirstFence(lines, i + 1) + 1;
      var code, rest := lines[i..next], ConvertLines(cls, lines, next, dir);
      CodeCloses(lines, i);
      if next < |lines| {
        CodePasses(body, i, next);
        Extend(body, spot, o, Offset(lines, next));
        ReplacedFrom(cls, body, next, dir, spot, pre + (Join(code) + "\n"));
        JoinAppend(code, rest);
        Reassociated(pre, Join(code) + "\n", Join(rest));
      } else {
        NoPlacesLeft(cls, lines, dir);
        CodeToEnd(cls, body, i, dir, spot, pre);
      }
    } else {
      var end := ReplacedLine(cls, body, i, dir, spot, pre);
      LineBreak(body, i);
      var line, stop := ConvertLine(cls, lines[i], dir), o + |lines[i]|;
      if i + 1 < |lines| {
        var rest := ConvertLines(cls, lines, i + 1, dir);
        Extend(body, end, stop, stop + 1);
        ReplacedFrom(cls, body, i + 1, dir, end, (pre + line) + "\n");
        JoinMore(line, rest);
        Reassociated(pre + line, "\n", Join(rest));
        Reassociated(pre, line, "\n" + Join(rest));
        Reassociated(line, "\n", Join(rest));
      } else {
        NoPlacesLeft(cls, lines, dir);
        LineToEnd(cls, body, i, dir, end, pre);
      }
    }
  }

  lemma CodeCloses(lines: seq<string>, i: nat)
    requires i < |lines| && OpensCode(lines, i)
    ensures i < FirstFence(lines, i + 1) < |lines|
  {
    hide FenceOpening;
  }

  /** A text or quote line that ends the body. */
  lemma LineToEnd(cls: Classes, body: string, i: nat, dir: Directory, end: Spot, pre: string)
    requires i + 1 == |Lines(body)| && !OpensCode(Lines(body), i) && end.start <= |body| && end.line <= |end.text|
    requires end.text + body[end.start..|body|] == pre + ConvertLine(cls, Lines(body)[i], dir)
    ensures AllFit(body, [], end.start)
    ensures Replaced(cls, body, [], dir.lookup, end) == pre + Join(ConvertLines(cls, Lines(body), i, dir))
  {
    hide Lines, FenceOpening, FirstFence, Replaced, ConvertLines, ConvertLine, Join;
    var line := ConvertLine(cls, Lines(body)[i], dir);
    ReplacedNone(cls, body, dir.lookup, end);
    ConvertStepLines(cls, Lines(body), i, dir);
    assert [line] + ConvertLines(cls, Lines(body), i + 1, dir) == [line];
    assert body[end.start..|body|] == body[end.start..];
    JoinOne(line);
  }

  lemma Extend(body: string, spot: Spot, a: nat, b: nat)
    requires spot.start <= a <= b <= |body|
    ensures spot.text + body[spot.start..b] == (spot.text + body[spot.start..a]) + body[a..b]
  {
    assert body[spot.start..a] + body[a..b] == body[spot.start..b];
  }

  /** Code up to the end of the body. */
  lemma CodeToEnd(cls: Classes, body: string, i: nat, dir: Directory, spot: Spot, pre: string)
    requires i < |Lines(body)| && OpensCode(Lines(body), i) && FirstFence(Lines(body), i + 1) + 1 == |Lines(body)|
    requires spot.start <= Offset(Lines(body), i) <= |body| && spot.line <= |spot.text|
    requires spot.text + body[spot.start..Offset(Lines(body), i)] == pre
    ensures AllFit(body, [], spot.start)
    ensures Replaced(cls, body, [], dir.lookup, spot) == pre + Join(ConvertLines(cls, Lines(body), i, dir))
  {
    hide Lines, Offset, FenceOpening, FirstFence, Replaced, ConvertLines, ConvertLine, Join;
    var lines := Lines(body);
    var code := lines[i..|lines|];
    BodyFrom(body, i);
    ReplacedNone(cls, body, dir.lookup, spot);
    ConvertStepLines(cls, lines, i, dir);
    assert code == lines[i..] && code + ConvertLines(cls, lines, |lines|, dir) == code;
    Extend(body, spot, Offset(lines, i), |body|);
    assert body[Offset(lines, i)..|body|] == body[Offset(lines, i)..] && body[spot.start..|body|] == body[spot.start..];
  }

  lemma JoinMore(line: string, rest: seq<string>)
    requires rest != []
    ensures Join([line] + rest) == line + "\n" + Join(rest)
  {
  }

  lemma JoinOne(line: string)
    ensures Join([line]) == line
  {
  }

  lemma LineBreak(body: string, i: nat)
    requires i < |Lines(body)|
    ensures var stop := Offset(Lines(body), i) + |Lines(body)[i]|;
            if i + 1 < |Lines(body)| then
              stop < |body| && body[stop..stop + 1] == "\n" && Offset(Lines(body), i + 1) == stop + 1
            else stop == |body|
  {
    hide Lines, Offset, Marker, Content;
    var line := Lines(body)[i];
    LineStands(body, i);
    ContentLength(line);
    OffsetNext(Lines(body), i);
  }

  /** What the one pass writes is the body converted line by line. */
  lemma OnePassIsLineByLine(cls: Classes, body: string, dir: Directory)
    ensures AllFit(body, Places(cls, Lines(body), 0, dir), 0)
    ensures Replaced(cls, body, Places(cls, Lines(body), 0, dir), dir.lookup, Spot(0, 0, "")) == ConvertBody(cls, body, dir)
  {
    hide Lines, Offset, AllFit, Places, Replaced, ConvertLines, Join;
    OffsetStarts(Lines(body));
    ReplacedFrom(cls, body, 0, dir, Spot(0, 0, ""), "");
  }

  /** Posting's conversion: find the handles, then write the references. */
  method ConvertHandles(cls: Classes, body: string, dir: Directory) returns (converted: string)
    ensures converted == ConvertBody(cls, body, dir)
  {
    hide Lines, Places, AllFit, Replaced, ConvertBody;
    var tokens := HandleTokens(cls, body, dir);
    OnePassIsLineByLine(cls, body, dir);
    converted := ReplaceHandles(cls, body, tokens, dir.lookup);
  }
}
