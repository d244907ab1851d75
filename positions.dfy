/**
 * Room positions as the bot stores them in memory: the `room@XxY` string
 * codec, coordinates packed as `x + 50 * y` (with the room name beside them
 * when it differs from a fixed room), and paths compressed to direction
 * constants between neighbouring tiles of one room.
 */
module Positions {
  import opened Common

  /**
   * A `RoomPosition`. A coordinate is a JavaScript number that may be `NaN`
   * (what `parseInt` makes of an empty digit string): `None` stands for it.
   */
  datatype RoomPos = RoomPos(x: Option<int>, y: Option<int>, roomName: string)

  /** A position with ordinary integer coordinates. */
  function At(x: int, y: int, roomName: string): RoomPos
  {
    RoomPos(Some(x), Some(y), roomName)
  }

  // ---------------------------------------------------------------------------
  // The string codec.
  // ---------------------------------------------------------------------------

  /** `${n}` for a number: `NaN` or its decimal numeral. */
  function NumberString(n: Option<int>): string
  {
    if n.Some? then IntToString(n.value) else "NaN"
  }

  /** `encodePosition`: nothing for a missing position, `room@XxY` otherwise. */
  function EncodePosition(position: Option<RoomPos>): (r: Option<string>)
    ensures r.None? <==> position.None?
  {
    if position.None? then None
    else
      var p := position.value;
      Some(p.roomName + "@" + NumberString(p.x) + "x" + NumberString(p.y))
  }

  /** The characters a regular expression's `.` does not match. */
  predicate LineTerminator(c: char)
  {
    c == '\n' || c == '\r' || c == '\U{2028}' || c == '\U{2029}'
  }

  predicate NoLineTerminator(s: string)
  {
    forall i :: 0 <= i < |s| ==> !LineTerminator(s[i])
  }

  /** The index of the last `c` in `s`, if any. */
  function LastIndexOf(s: string, c: char): (r: Option<nat>)
    ensures r.Some? ==> r.value < |s| && s[r.value] == c && c !in s[r.value + 1..]
    ensures r.None? ==> c !in s
  {
    if s == [] then None
    else if s[|s| - 1] == c then Some(|s| - 1)
    else
      var r := LastIndexOf(s[..|s| - 1], c);
      assert s == s[..|s| - 1] + [s[|s| - 1]];
      if r.Some? then
        assert s[r.value + 1..] == s[..|s| - 1][r.value + 1..] + [s[|s| - 1]];
        r
      else r
  }

  /** The index of the first `c` in `s`, if any. */
  function IndexOf(s: string, c: char): (r: Option<nat>)
    ensures r.Some? ==> r.value < |s| && s[r.value] == c && c !in s[..r.value]
    ensures r.None? ==> c !in s
  {
    if s == [] then None
    else if s[0] == c then Some(0)
    else
      var r := IndexOf(s[1..], c);
      assert s == [s[0]] + s[1..];
      if r.Some? then
        assert s[..r.value + 1] == [s[0]] + s[1..][..r.value];
        Some(r.value + 1)
      else None
  }

  /** The three groups of a match of `^(.*)@(\d*)x(\d*)$`. */
  datatype Groups = Groups(roomName: string, xDigits: string, yDigits: string)

  /** A sequence is what precedes an index, the element there, and what follows. */
  lemma SplitAt<T>(s: seq<T>, i: nat)
    requires i < |s|
    ensures s == s[..i] + [s[i]] + s[i + 1..]
  {
  }

  /** The groups for a room part and the text after its `@`: digits, the first `x`, digits. */
  function MatchAfter(roomName: string, rest: string): (r: Option<Groups>)
    ensures r.Some? ==>
              r.value.roomName == roomName && rest == r.value.xDigits + "x" + r.value.yDigits &&
              NoLineTerminator(roomName) && AllDigits(r.value.xDigits) && AllDigits(r.value.yDigits)
  {
    match IndexOf(rest, 'x')
    case None => None
    case Some(j) =>
      SplitAt(rest, j);
      var g := Groups(roomName, rest[..j], rest[j + 1..]);
      if NoLineTerminator(roomName) && AllDigits(g.xDigits) && AllDigits(g.yDigits) then Some(g) else None
  }

  /**
   * Matching `^(.*)@(\d*)x(\d*)$`: the suffix after the matched `@` holds
   * only digits and one `x`, so the `@` is the last one in the string and
   * the `x` the first one after it.
   */
  function MatchPosition(s: string): (r: Option<Groups>)
    ensures r.Some? ==>
              s == r.value.roomName + "@" + r.value.xDigits + "x" + r.value.yDigits &&
              NoLineTerminator(r.value.roomName) && AllDigits(r.value.xDigits) && AllDigits(r.value.yDigits)
  {
    match LastIndexOf(s, '@')
    case None => None
    case Some(i) =>
      var r := MatchAfter(s[..i], s[i + 1..]);
      if r.Some? then Rejoin(s, i, r.value); r else r
  }

  /** A string split at an `@` whose two sides are the groups is the groups joined. */
  lemma Rejoin(s: string, i: nat, g: Groups)
    requires i < |s| && s[i] == '@' && s[..i] == g.roomName && s[i + 1..] == g.xDigits + "x" + g.yDigits
    ensures s == g.roomName + "@" + g.xDigits + "x" + g.yDigits
  {
    SplitAt(s, i);
    assert s == g.roomName + "@" + (g.xDigits + "x" + g.yDigits);
  }

  /** No digit is an `@` or an `x`. */
  lemma DigitsFree(s: string)
    requires AllDigits(s)
    ensures '@' !in s && 'x' !in s
  {
    forall k | 0 <= k < |s| ensures s[k] != '@' && s[k] != 'x' {
      assert IsDigit(s[k]);
    }
  }

  /** A `c` with no `c` after it is the last one. */
  lemma LastIndexAt(s: string, c: char, n: nat)
    requires n < |s| && s[n] == c && c !in s[n + 1..]
    ensures LastIndexOf(s, c) == Some(n)
  {
    var i := LastIndexOf(s, c);
    assert s[n] in s;
    var v := i.value;
    forall k | v < k < |s| ensures s[k] != c {
      assert s[k] == s[v + 1..][k - v - 1];
    }
    forall k | n < k < |s| ensures s[k] != c {
      assert s[k] == s[n + 1..][k - n - 1];
    }
  }

  /** A `c` with no `c` before it is the first one. */
  lemma IndexAt(s: string, c: char, n: nat)
    requires n < |s| && s[n] == c && c !in s[..n]
    ensures IndexOf(s, c) == Some(n)
  {
    var j := IndexOf(s, c);
    assert s[n] in s;
    var v := j.value;
    forall k | 0 <= k < v ensures s[k] != c {
      assert s[k] == s[..v][k];
    }
    forall k | 0 <= k < n ensures s[k] != c {
      assert s[k] == s[..n][k];
    }
  }

  /** The text after the `@`, written as `X` + `x` + `Y` with no `x` in `X`, splits back at that `x`. */
  lemma MatchAfterShape(roomName: string, xs: string, ys: string)
    requires 'x' !in xs
    ensures MatchAfter(roomName, xs + "x" + ys) ==
            if NoLineTerminator(roomName) && AllDigits(xs) && AllDigits(ys) then Some(Groups(roomName, xs, ys)) else None
  {
    var rest := xs + "x" + ys;
    var m := |xs|;
    assert rest[m] == 'x' && rest[..m] == xs && rest[m + 1..] == ys;
    IndexAt(rest, 'x', m);
  }

  /** `X` + `x` + `Y` holds no `@` when neither part does. */
  lemma NoAtInRest(xs: string, ys: string)
    requires '@' !in xs && '@' !in ys
    ensures '@' !in xs + "x" + ys
  {
    var rest := xs + "x" + ys;
    forall k | 0 <= k < |rest| ensures rest[k] != '@' {
      if k < |xs| { assert rest[k] == xs[k]; }
      else if k > |xs| { assert rest[k] == ys[k - |xs| - 1]; }
    }
  }

  /**
   * A string written as `room@X` + `x` + `Y`, where `X` and `Y` hold no `@`
   * and `X` no `x`, is split back at those two separators; it matches
   * exactly when the room part has no line terminator and both parts are
   * digits.
   */
  lemma MatchShape(roomName: string, xs: string, ys: string)
    requires '@' !in xs && '@' !in ys && 'x' !in xs
    ensures MatchPosition(roomName + "@" + xs + "x" + ys) ==
            if NoLineTerminator(roomName) && AllDigits(xs) && AllDigits(ys) then Some(Groups(roomName, xs, ys)) else None
  {
    NoAtInRest(xs, ys);
    MatchAtLast(roomName, xs + "x" + ys);
    MatchAfterShape(roomName, xs, ys);
    Regroup(roomName, xs, ys);
  }

  /** With no `@` after it, the `@` written after the room part is the one the pattern splits at. */
  lemma MatchAtLast(roomName: string, rest: string)
    requires '@' !in rest
    ensures MatchPosition(roomName + "@" + rest) == MatchAfter(roomName, rest)
  {
    var s := roomName + "@" + rest;
    var n := |roomName|;
    assert s[n] == '@' && s[..n] == roomName && s[n + 1..] == rest;
    LastIndexAt(s, '@', n);
  }

  /** Joining is associative for the pattern's pieces. */
  lemma Regroup(roomName: string, xs: string, ys: string)
    ensures roomName + "@" + (xs + "x" + ys) == roomName + "@" + xs + "x" + ys
  {
  }

  /** Every string of the pattern's shape matches, with exactly those groups. */
  lemma MatchComplete(roomName: string, xDigits: string, yDigits: string)
    requires NoLineTerminator(roomName) && AllDigits(xDigits) && AllDigits(yDigits)
    ensures MatchPosition(roomName + "@" + xDigits + "x" + yDigits) == Some(Groups(roomName, xDigits, yDigits))
  {
    DigitsFree(xDigits);
    DigitsFree(yDigits);
    MatchShape(roomName, xDigits, yDigits);
  }

  /** `parseInt(s, 10)` on a string of digits: `NaN` for the empty string. */
  function ParseDigits(s: string): (r: Option<int>)
    requires AllDigits(s)
    ensures r.None? <==> s == []
  {
    if s == [] then None else Some(DigitsValue(s))
  }

  /**
   * `decodePosition`: nothing for a missing or empty string or one that does
   * not match `^(.*)@(\d*)x(\d*)$`; otherwise the position the groups name.
   */
  function DecodePosition(position: Option<string>): (r: Option<RoomPos>)
    ensures !Named(position) ==> r.None?
    ensures r.Some? ==> MatchPosition(position.value).Some? && r.value.roomName == MatchPosition(position.value).value.roomName
  {
    if !Named(position) then None
    else
      match MatchPosition(position.value)
      case None => None
      case Some(g) => Some(RoomPos(ParseDigits(g.xDigits), ParseDigits(g.yDigits), g.roomName))
  }

  /** Positions the string codec carries through unchanged. */
  predicate Encodable(p: RoomPos)
  {
    p.x.Some? && p.x.value >= 0 && p.y.Some? && p.y.value >= 0 && NoLineTerminator(p.roomName)
  }

  /** Decoding an encoded position with non-negative coordinates gives the position back. */
  lemma PositionRoundTrip(p: RoomPos)
    requires Encodable(p)
    ensures DecodePosition(EncodePosition(Some(p))) == Some(p)
  {
    var xs := NatToString(p.x.value);
    var ys := NatToString(p.y.value);
    MatchComplete(p.roomName, xs, ys);
    DecimalRoundTrip(p.x.value);
    DecimalRoundTrip(p.y.value);
  }

  /** A written number holds no `@` and no `x`. */
  lemma NumberStringFree(n: Option<int>)
    ensures '@' !in NumberString(n) && 'x' !in NumberString(n)
  {
    if n.Some? {
      var digits := NatToString(if n.value < 0 then -n.value else n.value);
      DigitsFree(digits);
      if n.value < 0 {
        assert NumberString(n) == "-" + digits;
      }
    } else {
      assert NumberString(n) == ['N', 'a', 'N'];
    }
  }

  /** A negative coordinate is written with a minus sign, which the pattern refuses. */
  lemma NegativeNotDecoded(p: RoomPos)
    requires p.x.Some? && p.x.value < 0
    ensures DecodePosition(EncodePosition(Some(p))) == None
  {
    var xs := NumberString(p.x);
    NumberStringFree(p.x);
    NumberStringFree(p.y);
    MatchShape(p.roomName, xs, NumberString(p.y));
    assert xs[0] == '-';
  }

  // ---------------------------------------------------------------------------
  // Packed coordinates.
  // ---------------------------------------------------------------------------

  /**
   * What the bot stores for a position: an old-style string, a number, or
   * `[coords, roomName]`; besides those, `Plain` is any other value that can
   * be indexed (an object that is not an array, a boolean), and `Other` is
   * `null` or `undefined`.
   */
  datatype Stored = Text(text: string) | Number(coords: int) | Pair(coords: int, roomName: string) | Plain | Other

  /** `n % 50` in JavaScript: the remainder takes the sign of `n`. */
  function Rem50(n: int): (r: int)
    ensures -50 < r < 50
    ensures n >= 0 ==> r == n % 50
  {
    if n >= 0 then n % 50 else -((-n) % 50)
  }

  /** `serializeCoords`: `x + 50 * y`, with the room name beside it when one is given. */
  function SerializeCoords(x: int, y: int, roomName: Option<string>): (r: Stored)
    ensures Named(roomName) <==> r.Pair?
    ensures r.Number? || r.Pair?
  {
    var coords := x + 50 * y;
    if !Named(roomName) then Number(coords) else Pair(coords, roomName.value)
  }

  /** A plain pair of coordinates, each possibly `NaN`. */
  datatype Coords = Coords(x: Option<int>, y: Option<int>)

  /** Unpacks `x + 50 * y`: `coords % 50` and `Math.floor(coords / 50)`. */
  function Unpack(coords: int): Coords
  {
    Coords(Some(Rem50(coords)), Some(coords / 50))
  }

  /**
   * `deserializeCoords`: a string is decoded (an undecodable one makes the
   * source read a field of `undefined`, an error here), a number or a pair
   * is unpacked; any other value is indexed like a pair, so its `[0]` is
   * `undefined` and both coordinates are `NaN`, except `null` and
   * `undefined`, which cannot be indexed (an error).
   */
  function DeserializeCoords(stored: Stored): (r: Option<Coords>)
    ensures stored.Number? || stored.Pair? ==> r == Some(Unpack(stored.coords))
    ensures stored.Plain? ==> r == Some(Coords(None, None))
    ensures stored.Other? ==> r.None?
    ensures stored.Text? ==> (r.Some? <==> DecodePosition(Some(stored.text)).Some?)
  {
    match stored
    case Text(s) =>
      var p := DecodePosition(Some(s));
      if p.None? then None else Some(Coords(p.value.x, p.value.y))
    case Number(c) => Some(Unpack(c))
    case Pair(c, _) => Some(Unpack(c))
    case Plain => Some(Coords(None, None))
    case Other => None
  }

  /** Packing and unpacking give back any tile coordinate with a non-negative `y`. */
  lemma CoordsRoundTrip(x: int, y: int, roomName: Option<string>)
    requires 0 <= x < 50 && y >= 0
    ensures DeserializeCoords(SerializeCoords(x, y, roomName)) == Some(Coords(Some(x), Some(y)))
  {
    var c := x + 50 * y;
    assert c / 50 == y && c % 50 == x by {
      assert c == 50 * y + x;
    }
  }

  /** `serializePosition`: the room name is dropped when it is the fixed room. */
  function SerializePosition(position: RoomPos, fixedRoom: string): (r: Stored)
    requires position.x.Some? && position.y.Some?
    ensures r.Pair? <==> position.roomName != fixedRoom && position.roomName != ""
  {
    SerializeCoords(position.x.value, position.y.value,
                    if position.roomName == fixedRoom then None else Some(position.roomName))
  }

  /**
   * `deserializePosition`: a string is decoded, a number is placed in the
   * fixed room, a pair in its own room, and anything else is nothing.
   */
  function DeserializePosition(stored: Stored, fixedRoom: string): (r: Option<RoomPos>)
    ensures stored.Number? ==> r == Some(RoomPos(Unpack(stored.coords).x, Unpack(stored.coords).y, fixedRoom))
    ensures stored.Pair? ==> r == Some(RoomPos(Unpack(stored.coords).x, Unpack(stored.coords).y, stored.roomName))
    ensures stored.Text? ==> r == DecodePosition(Some(stored.text))
    ensures stored.Plain? || stored.Other? ==> r.None?
  {
    match stored
    case Text(s) => DecodePosition(Some(s))
    case Number(c) => Some(RoomPos(Unpack(c).x, Unpack(c).y, fixedRoom))
    case Pair(c, roomName) => Some(RoomPos(Unpack(c).x, Unpack(c).y, roomName))
    case Plain => None
    case Other => None
  }

  /**
   * A tile position with a non-negative `y` survives packing relative to any
   * fixed room, as long as its own room name is not empty (an empty name is
   * falsy and is replaced by the fixed room).
   */
  lemma PositionPackRoundTrip(x: int, y: int, roomName: string, fixedRoom: string)
    requires 0 <= x < 50 && y >= 0 && roomName != ""
    ensures DeserializePosition(SerializePosition(At(x, y, roomName), fixedRoom), fixedRoom) == Some(At(x, y, roomName))
  {
    var c := x + 50 * y;
    assert c / 50 == y && c % 50 == x by {
      assert c == 50 * y + x;
    }
  }

  // ---------------------------------------------------------------------------
  // Compressed paths.
  // ---------------------------------------------------------------------------

  /** The eight directions, `TOP` (1) clockwise to `TOP_LEFT` (8). */
  datatype Direction = Top | TopRight | Right | BottomRight | Bottom | BottomLeft | Left | TopLeft

  /** The game's constant for a direction; every one is truthy. */
  function Code(d: Direction): (r: int)
    ensures 1 <= r <= 8
  {
    match d
    case Top => 1 case TopRight => 2 case Right => 3 case BottomRight => 4
    case Bottom => 5 case BottomLeft => 6 case Left => 7 case TopLeft => 8
  }

  /** `xOffsets[d]`. */
  function XOffset(d: Direction): int
  {
    match d
    case Top => 0 case TopRight => 1 case Right => 1 case BottomRight => 1
    case Bottom => 0 case BottomLeft => -1 case Left => -1 case TopLeft => -1
  }

  /** `yOffsets[d]`. */
  function YOffset(d: Direction): int
  {
    match d
    case Top => -1 case TopRight => -1 case Right => 0 case BottomRight => 1
    case Bottom => 1 case BottomLeft => 1 case Left => 0 case TopLeft => -1
  }

  /** `directions[dy][dx]`: a direction for a king move, nothing for no move or a longer one. */
  function DirectionOf(dx: int, dy: int): (r: Option<Direction>)
    ensures r.Some? <==> -1 <= dx <= 1 && -1 <= dy <= 1 && (dx, dy) != (0, 0)
    ensures r.Some? ==> XOffset(r.value) == dx && YOffset(r.value) == dy
  {
    if dy == -1 then
      if dx == -1 then Some(TopLeft) else if dx == 0 then Some(Top) else if dx == 1 then Some(TopRight) else None
    else if dy == 0 then
      if dx == -1 then Some(Left) else if dx == 1 then Some(Right) else None
    else if dy == 1 then
      if dx == -1 then Some(BottomLeft) else if dx == 0 then Some(Bottom) else if dx == 1 then Some(BottomRight) else None
    else None
  }

  /** Two positions in the same room, both with coordinates, one king move apart. */
  predicate Adjacent(a: RoomPos, b: RoomPos)
  {
    a.roomName == b.roomName && a.x.Some? && a.y.Some? && b.x.Some? && b.y.Some? &&
    DirectionOf(b.x.value - a.x.value, b.y.value - a.y.value).Some?
  }

  /** An entry of a compressed path: a full encoded position or a direction from the one before. */
  datatype Step = Full(text: string) | Move(direction: Direction)

  /** The step `serializePositionPath` writes for `pos`, given the position before it, if any. */
  function StepFor(previous: Option<RoomPos>, pos: RoomPos): (r: Step)
    ensures r.Move? <==> previous.Some? && Adjacent(previous.value, pos)
    ensures r.Move? ==> pos.x.value == previous.value.x.value + XOffset(r.direction) &&
                        pos.y.value == previous.value.y.value + YOffset(r.direction)
    ensures r.Full? ==> r.text == EncodePosition(Some(pos)).value
  {
    var direction :=
      if previous.Some? && previous.value.roomName == pos.roomName &&
         pos.x.Some? && previous.value.x.Some? && pos.y.Some? && previous.value.y.Some?
      then DirectionOf(pos.x.value - previous.value.x.value, pos.y.value - previous.value.y.value)
      else None;
    if direction.Some? then Move(direction.value) else Full(EncodePosition(Some(pos)).value)
  }

  /** The whole compressed path: every position's step, each relative to the one before. */
  function SerializedPath(path: seq<RoomPos>): (r: seq<Step>)
    ensures |r| == |path|
  {
    if path == [] then []
    else
      var n := |path|;
      SerializedPath(path[..n - 1]) + [StepFor(if n >= 2 then Some(path[n - 2]) else None, path[n - 1])]
  }

  /** `serializePositionPath`: walks the path remembering the previous position. */
  method SerializePositionPath(path: seq<RoomPos>) returns (steps: seq<Step>)
    ensures steps == SerializedPath(path)
  {
    var previous: Option<RoomPos> := None;
    steps := [];
    var i := 0;
    while i < |path|
      invariant 0 <= i <= |path|
      invariant steps == SerializedPath(path[..i])
      invariant previous == if i == 0 then None else Some(path[i - 1])
    {
      PrefixGrow(path, i);
      var pos := path[i];
      steps := steps + [StepFor(previous, pos)];
      previous := Some(pos);
      i := i + 1;
    }
    PrefixWhole(path);
  }

  /** The position a direction leads to. */
  function Moved(pos: RoomPos, d: Direction): RoomPos
  {
    RoomPos(if pos.x.Some? then Some(pos.x.value + XOffset(d)) else None,
            if pos.y.Some? then Some(pos.y.value + YOffset(d)) else None,
            pos.roomName)
  }

  /**
   * The decoded path: each full entry is decoded (an undecodable one gives
   * `undefined`), each direction moves from the entry before. `None` when a
   * direction has no position before it to move from, where the source
   * reads a field of `undefined`.
   */
  function DeserializedPath(steps: seq<Step>): (r: Option<seq<Option<RoomPos>>>)
    ensures r.Some? ==> |r.value| == |steps|
  {
    if steps == [] then Some([])
    else
      match DeserializedPath(steps[..|steps| - 1])
      case None => None
      case Some(front) =>
        match steps[|steps| - 1]
        case Full(s) => Some(front + [DecodePosition(Some(s))])
        case Move(d) =>
          if front == [] || front[|front| - 1].None? then None
          else Some(front + [Some(Moved(front[|front| - 1].value, d))])
  }

  /** Once a prefix of the entries cannot be decoded, neither can the whole. */
  lemma {:induction false} FailureSticks(steps: seq<Step>, i: nat)
    requires i <= |steps| && DeserializedPath(steps[..i]).None?
    ensures DeserializedPath(steps).None?
    decreases |steps| - i
  {
    if i < |steps| {
      PrefixGrow(steps, i);
      assert DeserializedPath(steps[..i + 1]).None?;
      FailureSticks(steps, i + 1);
    } else {
      PrefixWhole(steps);
    }
  }

  /** `deserializePositionPath`: walks the entries remembering the last position. */
  method DeserializePositionPath(steps: seq<Step>) returns (r: Option<seq<Option<RoomPos>>>)
    ensures r == DeserializedPath(steps)
  {
    var positions: seq<Option<RoomPos>> := [];
    var pos: Option<RoomPos> := None;
    var i := 0;
    while i < |steps|
      invariant 0 <= i <= |steps|
      invariant DeserializedPath(steps[..i]) == Some(positions)
      invariant pos == if i == 0 then None else positions[i - 1]
    {
      PrefixGrow(steps, i);
      match steps[i] {
        case Full(s) =>
          pos := DecodePosition(Some(s));
        case Move(d) =>
          if pos.None? {
            assert DeserializedPath(steps[..i + 1]).None?;
            FailureSticks(steps, i + 1);
            return None;
          }
          pos := Some(Moved(pos.value, d));
      }
      positions := positions + [pos];
      i := i + 1;
    }
    PrefixWhole(steps);
    r := Some(positions);
  }

  /** Every position given back, wrapped as the decoder returns it. */
  function Present(path: seq<RoomPos>): (r: seq<Option<RoomPos>>)
    ensures |r| == |path| && forall i :: 0 <= i < |path| ==> r[i] == Some(path[i])
  {
    seq(|path|, i requires 0 <= i < |path| => Some(path[i]))
  }

  lemma PresentLast(path: seq<RoomPos>)
    requires path != []
    ensures Present(path) == Present(path[..|path| - 1]) + [Some(path[|path| - 1])]
  {
  }

  /** Each step of an encodable position leads back to it: decoded in full, or moved from the one before. */
  lemma StepRecovers(previous: Option<RoomPos>, pos: RoomPos)
    requires Encodable(pos)
    ensures StepFor(previous, pos).Full? ==> DecodePosition(Some(StepFor(previous, pos).text)) == Some(pos)
    ensures StepFor(previous, pos).Move? ==> Moved(previous.value, StepFor(previous, pos).direction) == pos
  {
    var step := StepFor(previous, pos);
    if step.Full? {
      PositionRoundTrip(pos);
    } else {
      var p := previous.value;
      assert p.x.Some? && p.y.Some?;
      var d := DirectionOf(pos.x.value - p.x.value, pos.y.value - p.y.value);
      assert d == Some(step.direction);
    }
  }

  /** Decoding one more entry appends what that entry decodes to. */
  lemma DeserializedSnoc(steps: seq<Step>, out: seq<Option<RoomPos>>, step: Step, next: Option<RoomPos>)
    requires DeserializedPath(steps) == Some(out)
    requires step.Full? ==> next == DecodePosition(Some(step.text))
    requires step.Move? ==> out != [] && out[|out| - 1].Some? && next == Some(Moved(out[|out| - 1].value, step.direction))
    ensures DeserializedPath(steps + [step]) == Some(out + [next])
  {
    assert (steps + [step])[..|steps|] == steps;
  }

  /** The compressed entry of the last position decodes to it, after the rest of the path. */
  lemma RoundTripStep(path: seq<RoomPos>)
    requires path != [] && Encodable(path[|path| - 1])
    requires DeserializedPath(SerializedPath(path[..|path| - 1])) == Some(Present(path[..|path| - 1]))
    ensures DeserializedPath(SerializedPath(path)) == Some(Present(path))
  {
    var n := |path|;
    var front := path[..n - 1];
    var previous := if n >= 2 then Some(path[n - 2]) else None;
    var step := StepFor(previous, path[n - 1]);
    var out := Present(front);
    StepRecovers(previous, path[n - 1]);
    if step.Move? {
      assert out[|out| - 1] == Some(path[n - 2]);
    }
    DeserializedSnoc(SerializedPath(front), out, step, Some(path[n - 1]));
    PresentLast(path);
  }

  /** A path of encodable positions decodes to itself after compression. */
  lemma {:induction false} PathRoundTrip(path: seq<RoomPos>)
    requires forall i :: 0 <= i < |path| ==> Encodable(path[i])
    ensures DeserializedPath(SerializedPath(path)) == Some(Present(path))
  {
    if path != [] {
      var front := path[..|path| - 1];
      assert forall i :: 0 <= i < |front| ==> front[i] == path[i];
      PathRoundTrip(front);
      RoundTripStep(path);
    }
  }
}
