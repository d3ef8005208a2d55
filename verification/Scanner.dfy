/**
 The streaming brace scanner of the ingestion benchmark: it walks a text once and slices out
 each top-level object without parsing anything else.
 */
module Scanner {
  import opened Outcomes

  datatype ScanState = ScanState(depth: int, start: int, inString: bool, escape: bool)

  const INITIAL := ScanState(0, -1, false, false)

  /** What the loop body does with the character `ch` at index `i`. */
  function AfterChar(st: ScanState, ch: char, i: nat): ScanState {
    if st.escape then st.(escape := false)
    else if ch == '\\' && st.inString then st.(escape := true)
    else if ch == '"' then st.(inString := !st.inString)
    else if st.inString then st
    else if ch == '{' then st.(start := if st.depth == 0 then i else st.start, depth := st.depth + 1)
    else if ch == '}' then
      st.(depth := st.depth - 1, start := if st.depth == 1 then -1 else st.start)
    else st
  }

  /** Whether the character closes a top-level object that was seen to open. */
  predicate Closes(st: ScanState, ch: char) {
    !st.escape && !st.inString && ch == '}' && st.depth == 1 && st.start != -1
  }

  ghost predicate StartBehind(st: ScanState, i: nat) { -1 <= st.start < i || (i == 0 && st.start == -1) }

  /** The slices still to come from index `i` on. */
  ghost function ScanFrom(json: string, i: nat, st: ScanState): seq<string>
    requires i <= |json| && StartBehind(st, i)
    decreases |json| - i
  {
    if i == |json| then []
    else
      var rest := ScanFrom(json, i + 1, AfterChar(st, json[i], i));
      if Closes(st, json[i]) then [json[st.start..i + 1]] + rest else rest
  }

  ghost function Scan(json: string): seq<string> { ScanFrom(json, 0, INITIAL) }

  /** The loop of `streamParseDMM` up to the slice that is handed to the JSON parser. */
  method StreamParse(json: string) returns (slices: seq<string>)
    ensures slices == Scan(json)
  {
    slices := [];
    var depth, start, inString, escape := 0, -1, false, false;
    var i := 0;
    while i < |json|
      invariant 0 <= i <= |json|
      invariant StartBehind(ScanState(depth, start, inString, escape), i)
      invariant slices + ScanFrom(json, i, ScanState(depth, start, inString, escape)) == Scan(json)
    {
      var ch := json[i];
      ghost var st := ScanState(depth, start, inString, escape);
      ghost var before := slices;
      if escape {
        escape := false;
      } else if ch == '\\' && inString {
        escape := true;
      } else if ch == '"' {
        inString := !inString;
      } else if inString {
      } else if ch == '{' {
        if depth == 0 {
          start := i;
        }
        depth := depth + 1;
      } else if ch == '}' {
        depth := depth - 1;
        if depth == 0 && start != -1 {
          slices := slices + [json[start..i + 1]];
          start := -1;
        }
      }
      i := i + 1;
      assert ScanState(depth, start, inString, escape) == AfterChar(st, ch, i - 1);
      assert slices == before + if Closes(st, ch) then [json[st.start..i]] else [];
    }
  }

  // ---- texts the scanner is meant for ----

  datatype StringChar = Raw(c: char) | Escaped(c: char)

  /** A text as plain characters, string literals and brace-delimited objects. */
  datatype Piece = Plain(c: char) | Literal(body: seq<StringChar>) | Object(members: seq<Piece>)

  predicate WellFormed(p: Piece)
    decreases p
  {
    match p
    case Plain(c) => c != '"' && c != '{' && c != '}'
    case Literal(body) => forall k :: 0 <= k < |body| && body[k].Raw? ==> body[k].c != '"' && body[k].c != '\\'
    case Object(members) => AllWellFormed(members)
  }

  predicate AllWellFormed(ps: seq<Piece>)
    decreases ps
  {
    ps == [] || (WellFormed(ps[0]) && AllWellFormed(ps[1..]))
  }

  function BodyText(body: seq<StringChar>): string {
    if body == [] then ""
    else (if body[0].Raw? then [body[0].c] else ['\\', body[0].c]) + BodyText(body[1..])
  }

  function PieceText(p: Piece): string
    decreases p
  {
    match p
    case Plain(c) => [c]
    case Literal(body) => "\"" + BodyText(body) + "\""
    case Object(members) => "{" + Text(members) + "}"
  }

  function Text(ps: seq<Piece>): string
    decreases ps
  {
    if ps == [] then "" else PieceText(ps[0]) + Text(ps[1..])
  }

  /** The texts of the objects at the top level, in order. */
  ghost function Objects(ps: seq<Piece>): seq<string> {
    if ps == [] then []
    else (if ps[0].Object? then [PieceText(ps[0])] else []) + Objects(ps[1..])
  }

  /** The texts of the objects one level down, in order. */
  ghost function NestedObjects(ps: seq<Piece>): seq<string> {
    if ps == [] then []
    else (if ps[0].Object? then Objects(ps[0].members) else []) + NestedObjects(ps[1..])
  }

  ghost predicate TextAt(json: string, i: nat, t: string) {
    i + |t| <= |json| && json[i..i + |t|] == t
  }

  lemma {:induction false} TextAtParts(json: string, i: nat, a: string, b: string)
    requires TextAt(json, i, a + b)
    ensures TextAt(json, i, a) && TextAt(json, i + |a|, b)
  {
    var t := json[i..i + |a + b|];
    assert t[..|a|] == a && t[|a|..] == b;
    assert json[i..i + |a|] == t[..|a|];
    assert json[i + |a|..i + |a| + |b|] == t[|a|..];
  }

  lemma {:induction false} CharAt(json: string, i: nat, t: string, k: nat)
    requires TextAt(json, i, t) && k < |t|
    ensures json[i + k] == t[k]
  {
    assert json[i..i + |t|][k] == json[i + k];
  }

  // ---- walking over one piece ----

  lemma {:induction false} InsideString(json: string, i: nat, st: ScanState, body: seq<StringChar>)
    requires WellFormed(Literal(body)) && TextAt(json, i, BodyText(body))
    requires StartBehind(st, i) && st.inString && !st.escape
    ensures ScanFrom(json, i, st) == ScanFrom(json, i + |BodyText(body)|, st)
    decreases |body|
  {
    if body != [] {
      var head := if body[0].Raw? then [body[0].c] else ['\\', body[0].c];
      TextAtParts(json, i, head, BodyText(body[1..]));
      CharAt(json, i, head, 0);
      if body[0].Escaped? { CharAt(json, i, head, 1); }
      InsideString(json, i + |head|, st, body[1..]);
    }
  }

  lemma {:induction false} OverLiteral(json: string, i: nat, st: ScanState, body: seq<StringChar>)
    requires WellFormed(Literal(body)) && TextAt(json, i, PieceText(Literal(body)))
    requires StartBehind(st, i) && !st.inString && !st.escape
    ensures ScanFrom(json, i, st) == ScanFrom(json, i + |PieceText(Literal(body))|, st)
  {
    var b := BodyText(body);
    TextAtParts(json, i, "\"" + b, "\"");
    TextAtParts(json, i, "\"", b);
    CharAt(json, i, "\"", 0);
    CharAt(json, i + 1 + |b|, "\"", 0);
    InsideString(json, i + 1, st.(inString := true), body);
    hide BodyText, WellFormed, TextAt;
  }

  /** Where the braces and the members of an object lie. */
  lemma {:induction false} ObjectAt(json: string, i: nat, members: seq<Piece>)
    requires TextAt(json, i, PieceText(Object(members)))
    ensures var last := i + 1 + |Text(members)|;
      && last < |json| && json[i] == '{' && json[last] == '}'
      && TextAt(json, i + 1, Text(members))
      && last + 1 == i + |PieceText(Object(members))|
  {
    TextAtParts(json, i, "{" + Text(members), "}");
    TextAtParts(json, i, "{", Text(members));
    CharAt(json, i, "{", 0);
    CharAt(json, i + 1 + |Text(members)|, "}", 0);
    hide Text;
  }

  /** Inside an open object nothing is sliced: the walk comes out in the state it went in with. */
  lemma {:induction false} InsideObject(json: string, i: nat, st: ScanState, ps: seq<Piece>)
    requires AllWellFormed(ps) && TextAt(json, i, Text(ps))
    requires StartBehind(st, i) && !st.inString && !st.escape && st.depth >= 1
    ensures ScanFrom(json, i, st) == ScanFrom(json, i + |Text(ps)|, st)
    decreases ps
  {
    if ps != [] {
      TextAtParts(json, i, PieceText(ps[0]), Text(ps[1..]));
      OverPiece(json, i, st, ps[0]);
      InsideObject(json, i + |PieceText(ps[0])|, st, ps[1..]);
    }
  }

  lemma {:induction false} OverPiece(json: string, i: nat, st: ScanState, p: Piece)
    requires WellFormed(p) && TextAt(json, i, PieceText(p))
    requires StartBehind(st, i) && !st.inString && !st.escape && st.depth >= 1
    ensures ScanFrom(json, i, st) == ScanFrom(json, i + |PieceText(p)|, st)
    decreases p
  {
    match p {
      case Plain(c) =>
        OverPlain(json, i, st, c);
      case Literal(body) =>
        OverLiteral(json, i, st, body);
      case Object(members) =>
        ObjectAt(json, i, members);
        InsideObject(json, i + 1, st.(depth := st.depth + 1), members);
    }
  }

  lemma {:induction false} OverPlain(json: string, i: nat, st: ScanState, c: char)
    requires WellFormed(Plain(c)) && TextAt(json, i, [c])
    requires StartBehind(st, i) && !st.inString && !st.escape
    ensures ScanFrom(json, i, st) == ScanFrom(json, i + 1, st)
  {
    CharAt(json, i, [c], 0);
  }

  /** At depth zero each object is sliced out whole and everything between objects is skipped. */
  lemma {:induction false} AtTopLevel(json: string, i: nat, ps: seq<Piece>)
    requires AllWellFormed(ps) && TextAt(json, i, Text(ps))
    ensures ScanFrom(json, i, INITIAL) == Objects(ps) + ScanFrom(json, i + |Text(ps)|, INITIAL)
    decreases |ps|
  {
    hide ScanFrom, PieceText, TextAt, WellFormed;
    if ps != [] {
      TextAtParts(json, i, PieceText(ps[0]), Text(ps[1..]));
      TopPiece(json, i, ps[0]);
      AtTopLevel(json, i + |PieceText(ps[0])|, ps[1..]);
    }
  }

  lemma {:induction false} TopPiece(json: string, i: nat, p: Piece)
    requires WellFormed(p) && TextAt(json, i, PieceText(p))
    ensures ScanFrom(json, i, INITIAL) ==
      (if p.Object? then [PieceText(p)] else []) + ScanFrom(json, i + |PieceText(p)|, INITIAL)
  {
    match p {
      case Plain(c) =>
        OverPlain(json, i, INITIAL, c);
      case Literal(body) =>
        OverLiteral(json, i, INITIAL, body);
      case Object(members) =>
        OneObject(json, i, members);
    }
    hide ScanFrom;
  }

  lemma {:induction false} OneObject(json: string, i: nat, members: seq<Piece>)
    requires AllWellFormed(members) && TextAt(json, i, PieceText(Object(members)))
    ensures var t := PieceText(Object(members));
      ScanFrom(json, i, INITIAL) == [t] + ScanFrom(json, i + |t|, INITIAL)
  {
    var open := ScanState(1, i, false, false);
    ObjectAt(json, i, members);
    InsideObject(json, i + 1, open, members);
    var last := i + 1 + |Text(members)|;
    assert ScanFrom(json, last, open) == [json[i..last + 1]] + ScanFrom(json, last + 1, INITIAL);
  }

  /** On every well-formed text the slices are exactly its top-level objects, whole and in order. */
  lemma {:induction false} ScanFindsObjects(ps: seq<Piece>)
    requires AllWellFormed(ps)
    ensures Scan(Text(ps)) == Objects(ps)
  {
    var json := Text(ps);
    assert TextAt(json, 0, json);
    AtTopLevel(json, 0, ps);
  }

  // ---- joined objects ----

  predicate Separator(s: string) {
    forall k :: 0 <= k < |s| ==> s[k] != '"' && s[k] != '{' && s[k] != '}'
  }

  /** Objects written one after another, `seps[k]` before object `k` and the last separator at the end. */
  function Join(objects: seq<seq<Piece>>, seps: seq<string>): string
    requires |seps| == |objects| + 1
  {
    if objects == [] then seps[0]
    else seps[0] + PieceText(Object(objects[0])) + Join(objects[1..], seps[1..])
  }

  function PlainPieces(s: string): seq<Piece> {
    seq(|s|, k requires 0 <= k < |s| => Plain(s[k]))
  }

  function JoinPieces(objects: seq<seq<Piece>>, seps: seq<string>): seq<Piece>
    requires |seps| == |objects| + 1
  {
    if objects == [] then PlainPieces(seps[0])
    else PlainPieces(seps[0]) + [Object(objects[0])] + JoinPieces(objects[1..], seps[1..])
  }

  lemma {:induction false} TextAppend(a: seq<Piece>, b: seq<Piece>)
    ensures Text(a + b) == Text(a) + Text(b)
    ensures Objects(a + b) == Objects(a) + Objects(b)
    ensures AllWellFormed(a + b) <==> AllWellFormed(a) && AllWellFormed(b)
    decreases |a|
  {
    hide PieceText, WellFormed;
    if a == [] {
      assert a + b == b;
    } else {
      TextAppend(a[1..], b);
      PushPiece(a[0], a[1..]);
      PushPiece(a[0], a[1..] + b);
      assert [a[0]] + a[1..] == a;
      assert [a[0]] + (a[1..] + b) == a + b;
      hide Text, Objects, AllWellFormed;
    }
  }

  lemma {:induction false} PushPiece(p: Piece, ps: seq<Piece>)
    ensures Text([p] + ps) == PieceText(p) + Text(ps)
    ensures Objects([p] + ps) == (if p.Object? then [PieceText(p)] else []) + Objects(ps)
    ensures AllWellFormed([p] + ps) <==> WellFormed(p) && AllWellFormed(ps)
  {
    assert ([p] + ps)[1..] == ps;
  }

  lemma {:induction false} SeparatorText(s: string)
    requires Separator(s)
    ensures Text(PlainPieces(s)) == s && Objects(PlainPieces(s)) == [] && AllWellFormed(PlainPieces(s))
    decreases |s|
  {
    if s != "" {
      SeparatorText(s[1..]);
      assert PlainPieces(s)[1..] == PlainPieces(s[1..]);
      assert s == [s[0]] + s[1..];
    }
  }

  lemma {:induction false} JoinText(objects: seq<seq<Piece>>, seps: seq<string>)
    requires |seps| == |objects| + 1
    requires forall k :: 0 <= k < |seps| ==> Separator(seps[k])
    requires forall k :: 0 <= k < |objects| ==> AllWellFormed(objects[k])
    ensures Text(JoinPieces(objects, seps)) == Join(objects, seps)
    ensures AllWellFormed(JoinPieces(objects, seps))
    ensures Objects(JoinPieces(objects, seps))
         == seq(|objects|, k requires 0 <= k < |objects| => PieceText(Object(objects[k])))
    decreases |objects|
  {
    hide Text, Objects, AllWellFormed, PieceText, PlainPieces, Separator;
    SeparatorText(seps[0]);
    if objects != [] {
      JoinText(objects[1..], seps[1..]);
      SeparatedObject(seps[0], objects[0], JoinPieces(objects[1..], seps[1..]));
    }
  }

  lemma {:induction false} SeparatedObject(sep: string, members: seq<Piece>, rest: seq<Piece>)
    requires Separator(sep) && AllWellFormed(members)
    ensures var ps := PlainPieces(sep) + [Object(members)] + rest;
      && Text(ps) == sep + PieceText(Object(members)) + Text(rest)
      && (AllWellFormed(ps) <==> AllWellFormed(rest))
      && Objects(ps) == [PieceText(Object(members))] + Objects(rest)
  {
    SeparatorText(sep);
    assert PlainPieces(sep) + [Object(members)] + rest == PlainPieces(sep) + ([Object(members)] + rest);
    assert WellFormed(Object(members));
    hide PieceText, PlainPieces, Separator, WellFormed;
    TextAppend(PlainPieces(sep), [Object(members)] + rest);
    PushPiece(Object(members), rest);
    hide Text, Objects, AllWellFormed;
  }

  /** The scanner undoes the join: it hands back exactly the objects that were written, in order. */
  lemma {:induction false} ScannerUndoesJoin(objects: seq<seq<Piece>>, seps: seq<string>)
    requires |seps| == |objects| + 1
    requires forall k :: 0 <= k < |seps| ==> Separator(seps[k])
    requires forall k :: 0 <= k < |objects| ==> AllWellFormed(objects[k])
    ensures Scan(Join(objects, seps)) == seq(|objects|, k requires 0 <= k < |objects| => PieceText(Object(objects[k])))
  {
    JoinText(objects, seps);
    ScanFindsObjects(JoinPieces(objects, seps));
  }

  // ---- a stray closing brace ----

  const BELOW := ScanState(-1, -1, false, false)

  lemma {:induction false} BelowTopLevel(json: string, i: nat, ps: seq<Piece>)
    requires AllWellFormed(ps) && TextAt(json, i, Text(ps))
    ensures ScanFrom(json, i, BELOW) == NestedObjects(ps) + ScanFrom(json, i + |Text(ps)|, BELOW)
    decreases |ps|
  {
    hide ScanFrom, PieceText, TextAt, WellFormed, Objects;
    if ps != [] {
      TextAtParts(json, i, PieceText(ps[0]), Text(ps[1..]));
      PieceBelow(json, i, ps[0]);
      BelowTopLevel(json, i + |PieceText(ps[0])|, ps[1..]);
    }
  }

  lemma {:induction false} PieceBelow(json: string, i: nat, p: Piece)
    requires WellFormed(p) && TextAt(json, i, PieceText(p))
    ensures ScanFrom(json, i, BELOW) ==
      (if p.Object? then Objects(p.members) else []) + ScanFrom(json, i + |PieceText(p)|, BELOW)
  {
    hide Text, Objects, AllWellFormed, BodyText, TextAt;
    match p {
      case Plain(c) =>
        OverPlain(json, i, BELOW, c);
      case Literal(body) =>
        OverLiteral(json, i, BELOW, body);
      case Object(members) =>
        ObjectBelow(json, i, members);
    }
    hide ScanFrom;
  }

  lemma {:induction false} ObjectBelow(json: string, i: nat, members: seq<Piece>)
    requires AllWellFormed(members) && TextAt(json, i, PieceText(Object(members)))
    ensures ScanFrom(json, i, BELOW)
         == Objects(members) + ScanFrom(json, i + |PieceText(Object(members))|, BELOW)
  {
    ObjectAt(json, i, members);
    var last := i + 1 + |Text(members)|;
    assert ScanFrom(json, i, BELOW) == ScanFrom(json, i + 1, INITIAL);
    assert ScanFrom(json, last, INITIAL) == ScanFrom(json, last + 1, BELOW);
    hide ScanFrom, Text, Objects, AllWellFormed, TextAt, PieceText;
    AtTopLevel(json, i + 1, members);
  }

  /** One unmatched closing brace shifts the scanner down a level for the rest of the text: from there on it
      drops every object and slices out the objects nested directly inside them. */
  lemma {:induction false} StrayBraceShiftsLevel(a: seq<Piece>, b: seq<Piece>)
    requires AllWellFormed(a) && AllWellFormed(b)
    ensures Scan(Text(a) + "}" + Text(b)) == Objects(a) + NestedObjects(b)
  {
    hide Text, Objects, NestedObjects, AllWellFormed, ScanFrom, TextAt;
    var json, i := Text(a) + "}" + Text(b), |Text(a)|;
    BraceBetween(Text(a), Text(b));
    AtTopLevel(json, 0, a);
    BelowTopLevel(json, i + 1, b);
  }

  lemma {:induction false} BraceBetween(a: string, b: string)
    ensures var json := a + "}" + b;
      && TextAt(json, 0, a) && TextAt(json, |a| + 1, b)
      && ScanFrom(json, |a|, INITIAL) == ScanFrom(json, |a| + 1, BELOW) && ScanFrom(json, |json|, BELOW) == []
  {
    var json := a + "}" + b;
    assert json[0..|a|] == a && json[|a|] == '}' && json[|a| + 1..|a| + 1 + |b|] == b;
  }

  // ---- every text, well formed or not ----

  /** The character at `i` is taken as it is: it follows a backslash inside a literal. */
  ghost predicate Escaping(json: string, i: nat)
    requires i <= |json|
  {
    i > 0 && Inside(json, i - 1) && json[i - 1] == '\\' && !Escaping(json, i - 1)
  }

  /** The text before `i` leaves a literal open. */
  ghost predicate Inside(json: string, i: nat)
    requires i <= |json|
  {
    i > 0 && (Inside(json, i - 1) <==> !(json[i - 1] == '"' && !Escaping(json, i - 1)))
  }

  /** A brace that counts. */
  ghost predicate Brace(json: string, i: nat, c: char) { i < |json| && json[i] == c && !Inside(json, i) }

  /** How many more braces were opened than closed before `i`. */
  ghost function Depth(json: string, i: nat): int
    requires i <= |json|
  {
    if i == 0 then 0
    else Depth(json, i - 1) + (if Brace(json, i - 1, '{') then 1 else if Brace(json, i - 1, '}') then -1 else 0)
  }

  /** A top-level object: from a brace at level nought to the brace that closes it, and never back at level nought
      in between. */
  ghost predicate IsObject(json: string, a: nat, b: nat) {
    && a < b && Brace(json, a, '{') && Brace(json, b, '}') && Depth(json, a) == 0 && Depth(json, b) == 1
    && forall j :: a < j <= b ==> Depth(json, j) >= 1
  }

  /** The last brace before `i` that opened an object at level nought. */
  ghost function OpenedAt(json: string, i: nat): (a: int)
    requires i <= |json|
    ensures -1 <= a < i || (i == 0 && a == -1)
  {
    if i == 0 then -1
    else if Brace(json, i - 1, '{') && Depth(json, i - 1) == 0 then i - 1 else OpenedAt(json, i - 1)
  }

  ghost function StateAt(json: string, i: nat): ScanState
    requires i <= |json|
  {
    ScanState(Depth(json, i), if Depth(json, i) >= 1 then OpenedAt(json, i) else -1, Inside(json, i), Escaping(json, i))
  }

  lemma {:induction false} StateFollows(json: string, i: nat)
    requires i < |json|
    ensures AfterChar(StateAt(json, i), json[i], i) == StateAt(json, i + 1)
  {
    assert Escaping(json, i) ==> Inside(json, i);
  }

  lemma {:induction false} OpenedBefore(json: string, i: nat)
    requires i <= |json| && Depth(json, i) >= 1
    ensures var a := OpenedAt(json, i);
      0 <= a < i && Brace(json, a, '{') && Depth(json, a) == 0 && forall j :: a < j <= i ==> Depth(json, j) >= 1
  {
    if !(Brace(json, i - 1, '{') && Depth(json, i - 1) == 0) {
      OpenedBefore(json, i - 1);
    }
  }

  ghost predicate CutOut(json: string, spans: seq<(nat, nat)>, slices: seq<string>) {
    && |spans| == |slices|
    && forall k :: 0 <= k < |spans| ==>
         IsObject(json, spans[k].0, spans[k].1) && slices[k] == json[spans[k].0..spans[k].1 + 1]
  }

  ghost predicate InOrder(i: nat, spans: seq<(nat, nat)>) {
    && (forall k :: 0 <= k < |spans| ==> i <= spans[k].1)
    && (forall j, k :: 0 <= j < k < |spans| ==> spans[j].1 < spans[k].0)
  }

  ghost predicate NoneMissing(json: string, i: nat, spans: seq<(nat, nat)>) {
    forall a: nat, b: nat :: i <= b && IsObject(json, a, b) ==> (a, b) in spans
  }

  /** The objects that end at `i` or later: where each begins and ends, and its text. */
  ghost predicate ListsObjects(json: string, i: nat, spans: seq<(nat, nat)>, slices: seq<string>) {
    CutOut(json, spans, slices) && InOrder(i, spans) && NoneMissing(json, i, spans)
  }

  /** The scanner closes an object exactly where one ends, and knows where it began. */
  lemma {:induction false} ObjectEndsHere(json: string, i: nat)
    requires i < |json|
    ensures Closes(StateAt(json, i), json[i]) ==>
      StateAt(json, i).start == OpenedAt(json, i) >= 0 && IsObject(json, OpenedAt(json, i), i)
    ensures forall a: nat :: IsObject(json, a, i) ==> Closes(StateAt(json, i), json[i]) && a == OpenedAt(json, i)
  {
    assert Escaping(json, i) ==> Inside(json, i);
    hide Inside, Escaping, OpenedAt;
    if Depth(json, i) >= 1 { OpenedBefore(json, i); }
    hide Depth;
  }

  lemma {:induction false} ObjectsFrom(json: string, i: nat) returns (spans: seq<(nat, nat)>)
    requires i <= |json|
    ensures StartBehind(StateAt(json, i), i)
    ensures ListsObjects(json, i, spans, ScanFrom(json, i, StateAt(json, i)))
    decreases |json| - i
  {
    hide StateAt, IsObject, AfterChar, Closes, Depth, OpenedAt;
    spans := [];
    StartIsBehind(json, i);
    if i == |json| {
      NothingLeft(json);
    } else {
      StateFollows(json, i);
      ObjectEndsHere(json, i);
      spans := ObjectsFrom(json, i + 1);
      var rest := ScanFrom(json, i + 1, StateAt(json, i + 1));
      if Closes(StateAt(json, i), json[i]) {
        OneMoreObject(json, i, OpenedAt(json, i), spans, rest);
        spans := [(OpenedAt(json, i), i)] + spans;
      } else {
        NoObjectHere(json, i, spans, rest);
      }
    }
  }

  lemma {:induction false} NothingLeft(json: string)
    ensures ListsObjects(json, |json|, [], [])
  {
  }

  lemma {:induction false} StartIsBehind(json: string, i: nat)
    requires i <= |json|
    ensures StartBehind(StateAt(json, i), i)
  {
  }

  lemma {:induction false} NoObjectHere(json: string, i: nat, spans: seq<(nat, nat)>, rest: seq<string>)
    requires ListsObjects(json, i + 1, spans, rest) && forall a: nat :: !IsObject(json, a, i)
    ensures ListsObjects(json, i, spans, rest)
  {
    hide IsObject;
  }

  lemma {:induction false} OneMoreObject(json: string, i: nat, a: nat, spans: seq<(nat, nat)>, rest: seq<string>)
    requires ListsObjects(json, i + 1, spans, rest) && IsObject(json, a, i)
    requires forall own: nat :: IsObject(json, own, i) ==> own == a
    ensures ListsObjects(json, i, [(a, i)] + spans, [json[a..i + 1]] + rest)
  {
    forall k | 0 <= k < |spans| ensures i < spans[k].0 {
      ObjectsApart(json, i, a, spans[k].0, spans[k].1);
    }
    hide IsObject, CutOut, InOrder, NoneMissing;
    CutOneMore(json, a, i, spans, rest);
    OrderOneMore(a, i, spans);
    NoneMissingYet(json, a, i, spans);
  }

  lemma {:induction false} CutOneMore(json: string, a: nat, i: nat, spans: seq<(nat, nat)>, rest: seq<string>)
    requires CutOut(json, spans, rest) && IsObject(json, a, i)
    ensures CutOut(json, [(a, i)] + spans, [json[a..i + 1]] + rest)
  {
    hide IsObject;
  }

  lemma {:induction false} OrderOneMore(a: nat, i: nat, spans: seq<(nat, nat)>)
    requires InOrder(i + 1, spans) && forall k :: 0 <= k < |spans| ==> i < spans[k].0
    ensures InOrder(i, [(a, i)] + spans)
  {
  }

  lemma {:induction false} NoneMissingYet(json: string, a: nat, i: nat, spans: seq<(nat, nat)>)
    requires NoneMissing(json, i + 1, spans) && forall own: nat :: IsObject(json, own, i) ==> own == a
    ensures NoneMissing(json, i, [(a, i)] + spans)
  {
    hide IsObject;
  }

  lemma {:induction false} ObjectsApart(json: string, i: nat, a: nat, from: nat, last: nat)
    requires IsObject(json, a, i) && IsObject(json, from, last) && i < last
    ensures i < from
  {
    assert Depth(json, i + 1) == 0;
    hide Depth, Brace;
  }

  /** On every text the slices are exactly its top-level objects, in order: what a text leaves open at its end, or
      closes too often, yields nothing. */
  lemma {:induction false} ScanExactly(json: string) returns (spans: seq<(nat, nat)>)
    ensures ListsObjects(json, 0, spans, Scan(json))
  {
    hide AfterChar, Closes, ListsObjects;
    assert StateAt(json, 0) == INITIAL;
    spans := ObjectsFrom(json, 0);
  }
}
