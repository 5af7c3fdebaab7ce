/** Finding the comments of Rust source: one pass over its bytes that knows comments from the literals,
  lifetimes and nested comments they may stand in. */
module Lexer {
  import opened Common

  type Text = seq<Byte>

  const NEWLINE: Byte := 10
  const QUOTE: Byte := 34         // "
  const HASH: Byte := 35          // #
  const TICK: Byte := 39          // '
  const STAR: Byte := 42          // *
  const SLASH: Byte := 47         // /
  const ESCAPE: Byte := 92        // \
  const LETTER_B: Byte := 98
  const LETTER_C: Byte := 99
  const LETTER_R: Byte := 114

  // "// SAFETY:"
  const SAFETY_MARK: Text := [47, 47, 32, 83, 65, 70, 69, 84, 89, 58]

  datatype Safety = Justification | Prose

  datatype Comment = Comment(line: nat, safety: Safety)

  datatype Mode = Code | Line | Block(depth: nat) | Literal | Raw(hashes: nat) | Character

  function Newlines(text: Text): nat {
    if text == [] then 0 else Newlines(text[1..]) + if text[0] == NEWLINE then 1 else 0
  }

  predicate Word(byte: Byte) {
    48 <= byte <= 57 || 65 <= byte <= 90 || 97 <= byte <= 122 || byte == 95
  }

  predicate Starts(rest: Text, a: Byte, b: Byte) {
    |rest| >= 2 && rest[0] == a && rest[1] == b
  }

  function HashesAt(rest: Text, at: nat): (count: nat)
    ensures at <= |rest| ==> at + count <= |rest|
    decreases |rest| - at
  {
    if at < |rest| && rest[at] == HASH then 1 + HashesAt(rest, at + 1) else 0
  }

  datatype RawStart = RawStart(hashes: nat, width: nat)

  function RawPrefix(rest: Text): nat {
    if Starts(rest, LETTER_B, LETTER_R) || Starts(rest, LETTER_C, LETTER_R) then 2
    else if rest != [] && rest[0] == LETTER_R then 1
    else 0
  }

  /** `raw_start`: how many hashes open a raw string here, and how many bytes that takes. */
  function RawStartOf(rest: Text): (start: Option<RawStart>)
    ensures start.Some? ==> 1 <= start.value.width <= |rest|
  {
    var prefix := RawPrefix(rest);
    if prefix == 0 then None else
      var hashes := HashesAt(rest, prefix);
      if prefix + hashes < |rest| && rest[prefix + hashes] == QUOTE
      then Some(RawStart(hashes, prefix + hashes + 1)) else None
  }

  /** `closes_raw`: a quote and as many hashes as opened the string. */
  predicate ClosesRaw(rest: Text, hashes: nat) {
    |rest| > hashes && rest[0] == QUOTE && forall i :: 1 <= i <= hashes ==> rest[i] == HASH
  }

  /** The bytes a character takes that begins with this byte, if it takes more than one. */
  function Width(first: Byte): nat {
    if 0xc0 <= first <= 0xdf then 2
    else if 0xe0 <= first <= 0xef then 3
    else if 0xf0 <= first <= 0xf7 then 4
    else 0
  }

  /** `is_character`: a tick here opens a character literal, not a lifetime. */
  predicate IsCharacter(rest: Text) {
    && |rest| >= 2 && rest[0] == TICK
    && (|| rest[1] == ESCAPE
        || (|rest| >= 3 && rest[2] == TICK)
        || (Width(rest[1]) > 0 && |rest| > Width(rest[1]) + 1 && rest[Width(rest[1]) + 1] == TICK))
  }

  function SafetyOf(rest: Text): Safety {
    if SAFETY_MARK <= rest then Justification else Prose
  }

  /** One turn of the loop: how far it steps, what it is in afterwards, and the comment it found. */
  datatype Move = Move(step: nat, mode: Mode, word: bool, comment: Option<Safety>)

  function InCode(rest: Text, word: bool): (move: Move)
    requires rest != []
    ensures 1 <= move.step <= |rest|
  {
    var after := Word(rest[0]);
    if Starts(rest, SLASH, SLASH) then Move(1, Line, after, Some(SafetyOf(rest)))
    else if Starts(rest, SLASH, STAR) then Move(2, Block(1), after, Some(Prose))
    else if rest[0] == QUOTE then Move(1, Literal, after, None)
    else if IsCharacter(rest) then Move(1, Character, after, None)
    else
      var start := RawStartOf(rest);
      if start.Some? && !word then Move(start.value.width, Raw(start.value.hashes), after, None)
      else Move(1, Code, after, None)
  }

  function Quoted(rest: Text, quote: Byte, mode: Mode, word: bool): (move: Move)
    requires rest != []
    ensures 1 <= move.step <= |rest|
  {
    if rest[0] == ESCAPE && |rest| >= 2 then Move(2, mode, word, None)
    else if rest[0] == quote then Move(1, Code, word, None)
    else Move(1, mode, word, None)
  }

  function Advance(rest: Text, mode: Mode, word: bool): (move: Move)
    ensures rest != [] ==> 1 <= move.step <= |rest|
  {
    if rest == [] then Move(1, mode, word, None)
    else match mode
    case Code => InCode(rest, word)
    case Line => Move(1, if rest[0] == NEWLINE then Code else Line, word, None)
    case Block(depth) =>
      if Starts(rest, STAR, SLASH) then Move(2, if depth <= 1 then Code else Block(depth - 1), word, None)
      else if Starts(rest, SLASH, STAR) then Move(2, Block(depth + 1), word, None)
      else Move(1, Block(depth), word, None)
    case Literal => Quoted(rest, QUOTE, Literal, word)
    case Raw(hashes) =>
      if ClosesRaw(rest, hashes) then Move(hashes + 1, Code, word, None) else Move(1, Raw(hashes), word, None)
    case Character => Quoted(rest, TICK, Character, word)
  }

  function CommentAt(move: Move, line: nat): seq<Comment> {
    if move.comment.Some? then [Comment(line, move.comment.value)] else []
  }

  /** A rule for one turn. */
  type Rule = (Text, Mode, bool) -> Move

  /** How far a turn gets: at least one byte, and not past the end. */
  function Stride(move: Move, rest: Text): (stride: nat)
    requires rest != []
    ensures 1 <= stride <= |rest|
  {
    if move.step == 0 then 1 else if move.step > |rest| then |rest| else move.step
  }

  /** The comments found from here on when turns follow a rule. */
  function Scan(rule: Rule, rest: Text, mode: Mode, line: nat, word: bool): seq<Comment>
    decreases |rest|
  {
    if rest == [] then [] else
      var move := rule(rest, mode, word);
      var stride := Stride(move, rest);
      CommentAt(move, line) + Scan(rule, rest[stride..], move.mode, line + Newlines(rest[..stride]), move.word)
  }

  /** The comments of a whole source. */
  function Found(source: Text): seq<Comment> {
    Scan(Advance, source, Code, 1, false)
  }

  /** What is found in a text from a state, whatever the rule. */
  type Reader = (Text, Mode, nat, bool) -> seq<Comment>

  function Reads(rule: Rule): Reader {
    (text: Text, mode: Mode, line: nat, word: bool) => Scan(rule, text, mode, line, word)
  }

  /** What was found and what the rest of the source holds are everything. */
  ghost predicate IsLeft(read: Reader, all: seq<Comment>, found: seq<Comment>, rest: Text, mode: Mode, line: nat, word: bool) {
    found + read(rest, mode, line, word) == all
  }

  lemma Continues(rule: Rule, all: seq<Comment>, found: seq<Comment>, rest: Text, mode: Mode, line: nat, word: bool,
                  move: Move, more: seq<Comment>, next: Text, at: nat)
    requires IsLeft(Reads(rule), all, found, rest, mode, line, word)
    requires rest != [] && rule(rest, mode, word) == move && 1 <= move.step <= |rest|
    requires more == found + CommentAt(move, line)
    requires next == rest[move.step..] && at == line + Newlines(rest[..move.step])
    ensures IsLeft(Reads(rule), all, more, next, move.mode, at, move.word)
  {
    var left := Scan(rule, next, move.mode, at, move.word);
    assert found + (CommentAt(move, line) + left) == (found + CommentAt(move, line)) + left;
  }

  lemma Finishes(rule: Rule, all: seq<Comment>, found: seq<Comment>, rest: Text, mode: Mode, line: nat, word: bool)
    requires IsLeft(Reads(rule), all, found, rest, mode, line, word) && rest == []
    ensures found == all
  {}

  lemma DropsAdd(text: Text, a: nat, b: nat)
    requires a + b <= |text|
    ensures text[a..][b..] == text[a + b..]
  {}

  /** A rule that always gets on, and never past the end. */
  ghost predicate GetsOn(rule: Rule) {
    forall rest, mode, word :: rest != [] ==> 1 <= rule(rest, mode, word).step <= |rest|
  }

  /** The loop over the bytes, whatever the rule. */
  method FindBy(rule: Rule, source: Text) returns (found: seq<Comment>)
    requires GetsOn(rule)
    ensures found == Scan(rule, source, Code, 1, false)
  {
    found := [];
    var mode, word := Code, false;
    var line: nat, index: nat := 1, 0;
    ghost var all := Scan(rule, source, mode, line, word);
    assert source[0..] == source;
    while index < |source|
      invariant index <= |source|
      invariant IsLeft(Reads(rule), all, found, source[index..], mode, line, word)
    {
      var rest := source[index..];
      var move := rule(rest, mode, word);
      var at := line + Newlines(rest[..move.step]);
      ghost var before := found;
      if move.comment.Some? {
        found := found + [Comment(line, move.comment.value)];
      }
      DropsAdd(source, index, move.step);
      Continues(rule, all, before, rest, mode, line, word, move, found, source[index + move.step..], at);
      mode, word, line, index := move.mode, move.word, at, index + move.step;
    }
    Finishes(rule, all, found, source[index..], mode, line, word);
  }

  /** `find`: the comments of a source, each with its line and whether it justifies unsafe code. */
  method Find(source: Text) returns (found: seq<Comment>)
    ensures found == Found(source)
  {
    found := FindBy(Advance, source);
  }

  // ---------- sources made of tokens ----------

  /** What is between the outer marks of a block comment: text, and nested comments with more text after. */
  datatype Nest = Last(text: Text) | Then(text: Text, inner: Nest, rest: Nest)

  /** One byte of a quoted literal: itself, or escaped. */
  datatype Piece = Plain(byte: Byte) | Escaped(byte: Byte)

  datatype RawKind = R | BR | CR

  datatype Token =
    | LineComment(text: Text)
    | BlockComment(nest: Nest)
    | StringLiteral(pieces: seq<Piece>)
    | RawString(kind: RawKind, hashes: nat, text: Text)
    | CharLiteral(byte: Byte)
    | WideCharLiteral(bytes: Text)
    | EscapedCharLiteral(first: Byte, pieces: seq<Piece>)
    | Prefixed(prefix: Byte, literal: Token)
    | Lifetime(name: Text)
    | Other(text: Text)

  function Hashes(count: nat): Text {
    seq(count, i => HASH)
  }

  function NestText(nest: Nest): Text {
    match nest
    case Last(text) => text
    case Then(text, inner, rest) => text + [SLASH, STAR] + NestText(inner) + [STAR, SLASH] + NestText(rest)
  }

  function PieceText(pieces: seq<Piece>): Text {
    if pieces == [] then [] else OnePiece(pieces[0]) + PieceText(pieces[1..])
  }

  function KindText(kind: RawKind): Text {
    match kind case R => [LETTER_R] case BR => [LETTER_B, LETTER_R] case CR => [LETTER_C, LETTER_R]
  }

  function TokenText(token: Token): Text {
    match token
    case LineComment(text) => [SLASH, SLASH] + text
    case BlockComment(nest) => [SLASH, STAR] + NestText(nest) + [STAR, SLASH]
    case StringLiteral(pieces) => [QUOTE] + PieceText(pieces) + [QUOTE]
    case RawString(kind, hashes, text) => KindText(kind) + Hashes(hashes) + [QUOTE] + text + [QUOTE] + Hashes(hashes)
    case CharLiteral(byte) => [TICK, byte, TICK]
    case WideCharLiteral(bytes) => [TICK] + bytes + [TICK]
    case EscapedCharLiteral(first, pieces) => [TICK, ESCAPE, first] + PieceText(pieces) + [TICK]
    case Prefixed(prefix, literal) => [prefix] + TokenText(literal)
    case Lifetime(name) => [TICK] + name
    case Other(text) => text
  }

  /** Neither mark of a block comment is in the text. */
  predicate NoMarks(text: Text) {
    forall i :: 0 <= i < |text| - 1 ==> !Starts(text[i..], STAR, SLASH) && !Starts(text[i..], SLASH, STAR)
  }

  predicate EndsWith(text: Text, byte: Byte) {
    text != [] && text[|text| - 1] == byte
  }

  /** The text of a nested comment is never misread: no marks in it, and none made with the mark after it. */
  predicate GoodNest(nest: Nest) {
    match nest
    case Last(text) => NoMarks(text) && !EndsWith(text, SLASH)
    case Then(text, inner, rest) => NoMarks(text) && !EndsWith(text, STAR) && GoodNest(inner) && GoodNest(rest)
  }

  predicate GoodPieces(pieces: seq<Piece>, quote: Byte) {
    forall piece :: piece in pieces && piece.Plain? ==> piece.byte != quote && piece.byte != ESCAPE
  }

  /** A literal between quotes or ticks. */
  predicate IsLiteral(token: Token) {
    token.StringLiteral? || token.CharLiteral? || token.WideCharLiteral? || token.EscapedCharLiteral?
  }

  predicate GoodToken(token: Token) {
    match token
    case LineComment(text) => NEWLINE !in text
    case BlockComment(nest) => GoodNest(nest)
    case StringLiteral(pieces) => GoodPieces(pieces, QUOTE)
    case RawString(_, hashes, text) => forall i :: 0 <= i < |text| ==> !ClosesRaw(text[i..], hashes)
    case CharLiteral(byte) => byte != TICK && byte != ESCAPE
    case WideCharLiteral(bytes) =>
      bytes != [] && Width(bytes[0]) == |bytes| && forall byte :: byte in bytes ==> byte != TICK && byte != ESCAPE
    case EscapedCharLiteral(_, pieces) => GoodPieces(pieces, TICK)
    case Prefixed(prefix, literal) =>
      && IsLiteral(literal) && GoodToken(literal)
      && (prefix == LETTER_B || (prefix == LETTER_C && literal.StringLiteral?))
    case Lifetime(name) => name != [] && forall byte :: byte in name ==> Word(byte)
    case Other(text) =>
      && QUOTE !in text && TICK !in text
      && forall i :: 0 <= i < |text| - 1 ==> !Starts(text[i..], SLASH, SLASH) && !Starts(text[i..], SLASH, STAR)
  }

  /** White space, a newline or punctuation that cannot begin or continue a token. */
  predicate Separator(byte: Byte) {
    !Word(byte) && byte !in [QUOTE, HASH, TICK, STAR, SLASH]
  }

  /** A token and what separates it from the next one. */
  datatype Item = Item(token: Token, separator: Byte)

  predicate GoodItem(item: Item) {
    && GoodToken(item.token) && Separator(item.separator)
    && (item.token.LineComment? ==> item.separator == NEWLINE)
  }

  function Printed(items: seq<Item>, last: Token): Text {
    if items == [] then TokenText(last)
    else TokenText(items[0].token) + [items[0].separator] + Printed(items[1..], last)
  }

  // ---------- what the bytes stand for ----------

  lemma MarksAreSpelled()
    ensures [NEWLINE, QUOTE, HASH, TICK, STAR, SLASH, ESCAPE] == Ascii("\n\"#'*/\\")
    ensures [LETTER_B, LETTER_C, LETTER_R] == Ascii("bcr")
    ensures SAFETY_MARK == Ascii("// SAFETY:")
  {}

  /** The bytes an identifier is made of. */
  lemma WordIs(byte: Byte)
    ensures Word(byte) <==>
      var c := byte as char; '0' <= c <= '9' || 'A' <= c <= 'Z' || 'a' <= c <= 'z' || c == '_'
  {}

  function PlacesOf(text: Text, byte: Byte): set<int> {
    set i | 0 <= i < |text| && text[i] == byte
  }

  /** As many newlines as there are places with one. */
  lemma {:induction false} NewlinesCount(text: Text)
    ensures Newlines(text) == |PlacesOf(text, 10)|
    decreases |text|
  {
    if text != [] {
      var last := |text| - 1;
      var front, byte := text[..last], text[last];
      NewlinesCount(front);
      NewlinesAdd(front, [byte]);
      assert text == front + [byte] && [byte][1..] == [];
      assert PlacesOf(text, 10) == PlacesOf(front, 10) + if byte == 10 then {last} else {};
    }
  }

  /** How long a character is, by the leading bits of its first byte: 110, 1110 or 11110. */
  lemma WidthIs(first: Byte)
    ensures Width(first) == if first / 32 == 6 then 2 else if first / 16 == 14 then 3 else if first / 8 == 30 then 4 else 0
  {}

  /** A character outside ASCII, as section 3 of RFC 3629 encodes it. */
  function Utf8(scalar: nat): Text
    requires 0x80 <= scalar < 0x11_0000
  {
    if scalar < 0x800 then [0xc0 + scalar / 64, 0x80 + scalar % 64]
    else if scalar < 0x1_0000 then [0xe0 + scalar / 4096, 0x80 + scalar / 64 % 64, 0x80 + scalar % 64]
    else [0xf0 + scalar / 0x4_0000, 0x80 + scalar / 4096 % 64, 0x80 + scalar / 64 % 64, 0x80 + scalar % 64]
  }

  /** Every such character between ticks is a character literal. */
  lemma EveryCharacterIsALiteral(scalar: nat)
    requires 0x80 <= scalar < 0x11_0000
    ensures GoodToken(WideCharLiteral(Utf8(scalar)))
  {}

  // " SAFETY:"
  const SAFETY_TEXT: Text := [32, 83, 65, 70, 69, 84, 89, 58]

  function CommentOf(token: Token, line: nat): seq<Comment> {
    match token
    case LineComment(text) => [Comment(line, if SAFETY_TEXT <= text then Justification else Prose)]
    case BlockComment(_) => [Comment(line, Prose)]
    case _ => []
  }

  /** The comment tokens in order, each with one plus the newlines before it. */
  function Comments(items: seq<Item>, last: Token, line: nat): seq<Comment> {
    if items == [] then CommentOf(last, line)
    else
      var text := TokenText(items[0].token) + [items[0].separator];
      CommentOf(items[0].token, line) + Comments(items[1..], last, line + Newlines(text))
  }

  // ---------- how each token is passed over ----------

  lemma {:induction false} NewlinesAdd(a: Text, b: Text)
    ensures Newlines(a + b) == Newlines(a) + Newlines(b)
  {
    if a == [] {
      assert a + b == b;
    } else {
      NewlinesAdd(a[1..], b);
      assert (a + b)[1..] == a[1..] + b;
    }
  }

  ghost predicate PassesAt(read: Reader, text: Text, tail: Text, mode: Mode, word: bool, last: Mode, after: bool, line: nat) {
    read(text + tail, mode, line, word) == read(tail, last, line + Newlines(text), after)
  }

  /** From one state the text is passed over without finding anything, and leads to another state. */
  ghost predicate Passes(read: Reader, text: Text, tail: Text, mode: Mode, word: bool, last: Mode, after: bool) {
    forall line: nat :: PassesAt(read, text, tail, mode, word, last, after, line)
  }

  lemma PassNothing(read: Reader, tail: Text, mode: Mode, word: bool)
    ensures Passes(read, [], tail, mode, word, mode, word)
  {
    assert [] + tail == tail;
  }

  lemma PassTurn(rule: Rule, text: Text, tail: Text, mode: Mode, word: bool, last: Mode, after: bool)
    requires text != [] && rule(text + tail, mode, word) == Move(|text|, last, after, None)
    ensures Passes(Reads(rule), text, tail, mode, word, last, after)
  {
    assert (text + tail)[..|text|] == text && (text + tail)[|text|..] == tail;
  }

  /** Two stretches passed over one after the other. */
  lemma PassBoth(read: Reader, head: Text, rest: Text, tail: Text, mode: Mode, word: bool,
                 middle: Mode, half: bool, last: Mode, after: bool)
    requires Passes(read, head, rest + tail, mode, word, middle, half)
    requires Passes(read, rest, tail, middle, half, last, after)
    ensures Passes(read, head + rest, tail, mode, word, last, after)
  {
    Assoc(head, rest, tail);
    NewlinesAdd(head, rest);
    forall line: nat ensures PassesAt(read, head + rest, tail, mode, word, last, after, line) {
      assert PassesAt(read, head, rest + tail, mode, word, middle, half, line);
      assert PassesAt(read, rest, tail, middle, half, last, after, line + Newlines(head));
    }
  }

  lemma Assoc(head: Text, rest: Text, tail: Text)
    ensures head + (rest + tail) == (head + rest) + tail
  {}

  lemma ReadOn(text: Text, tail: Text)
    requires text != []
    ensures text == [text[0]] + text[1..] && text + tail == [text[0]] + (text[1..] + tail)
  {}

  lemma {:induction false} PassLine(text: Text, tail: Text, word: bool)
    requires NEWLINE !in text
    ensures Passes(Reads(Advance), text, tail, Line, word, Line, word)
  {
    if text == [] {
      PassNothing(Reads(Advance), tail, Line, word);
    } else {
      ReadOn(text, tail);
      var first, rest := [text[0]], text[1..];
      PassTurn(Advance, first, rest + tail, Line, word, Line, word);
      PassLine(rest, tail, word);
      PassBoth(Reads(Advance), first, rest, tail, Line, word, Line, word, Line, word);
    }
  }

  lemma {:induction false} NoNewlines(text: Text)
    requires NEWLINE !in text
    ensures Newlines(text) == 0
  {
    if text != [] {
      NoNewlines(text[1..]);
    }
  }

  lemma NoMarksAfter(text: Text)
    requires NoMarks(text) && text != []
    ensures NoMarks(text[1..])
    ensures |text| > 1 ==> !Starts(text, STAR, SLASH) && !Starts(text, SLASH, STAR)
  {
    assert text[0..] == text;
    var rest := text[1..];
    forall i | 0 <= i < |rest| - 1 ensures !Starts(rest[i..], STAR, SLASH) && !Starts(rest[i..], SLASH, STAR) {
      assert rest[i..] == text[i + 1..];
    }
  }

  /** Text of a block comment: no marks in it, and none where it meets what follows. */
  lemma {:induction false} PassBlockText(text: Text, tail: Text, depth: nat, word: bool)
    requires NoMarks(text) && tail != []
    requires !(EndsWith(text, STAR) && tail[0] == SLASH) && !(EndsWith(text, SLASH) && tail[0] == STAR)
    ensures Passes(Reads(Advance), text, tail, Block(depth), word, Block(depth), word)
  {
    if text == [] {
      PassNothing(Reads(Advance), tail, Block(depth), word);
    } else {
      ReadOn(text, tail);
      NoMarksAfter(text);
      var first, rest := [text[0]], text[1..];
      PassTurn(Advance, first, rest + tail, Block(depth), word, Block(depth), word);
      PassBlockText(rest, tail, depth, word);
      PassBoth(Reads(Advance), first, rest, tail, Block(depth), word, Block(depth), word, Block(depth), word);
    }
  }

  function Out(depth: nat): Mode {
    if depth <= 1 then Code else Block(depth - 1)
  }

  const OPEN: Text := [SLASH, STAR]
  const SHUT: Text := [STAR, SLASH]

  /** The inside of a comment and its closing mark end one level of nesting. */
  lemma {:induction false} PassNest(nest: Nest, tail: Text, depth: nat, word: bool)
    requires GoodNest(nest) && depth >= 1
    ensures Passes(Reads(Advance), NestText(nest) + SHUT, tail, Block(depth), word, Out(depth), word)
    decreases nest, 0
  {
    match nest {
      case Last(text) =>
        PassBlockText(text, SHUT + tail, depth, word);
        PassTurn(Advance, SHUT, tail, Block(depth), word, Out(depth), word);
        PassBoth(Reads(Advance), text, SHUT, tail, Block(depth), word, Block(depth), word, Out(depth), word);
      case Then(text, inner, rest) =>
        var before, after := text + (OPEN + (NestText(inner) + SHUT)), NestText(rest) + SHUT;
        PassInner(text, inner, after + tail, depth, word);
        PassNest(rest, tail, depth, word);
        PassBoth(Reads(Advance), before, after, tail, Block(depth), word, Block(depth), word, Out(depth), word);
        assert before + after == NestText(nest) + SHUT;
    }
  }

  lemma PassOpen(tail: Text, depth: nat, word: bool)
    ensures Passes(Reads(Advance), OPEN, tail, Block(depth), word, Block(depth + 1), word)
  {
    PassTurn(Advance, OPEN, tail, Block(depth), word, Block(depth + 1), word);
  }

  /** Text, then a whole nested comment. */
  lemma {:induction false} PassInner(text: Text, inner: Nest, tail: Text, depth: nat, word: bool)
    requires NoMarks(text) && !EndsWith(text, STAR) && GoodNest(inner) && depth >= 1
    ensures Passes(Reads(Advance), text + (OPEN + (NestText(inner) + SHUT)), tail, Block(depth), word, Block(depth), word)
    decreases inner, 1
  {
    var inside := NestText(inner) + SHUT;
    PassBlockText(text, (OPEN + inside) + tail, depth, word);
    PassOpen(inside + tail, depth, word);
    PassNest(inner, tail, depth + 1, word);
    PassBoth(Reads(Advance), OPEN, inside, tail, Block(depth), word, Block(depth + 1), word, Block(depth), word);
    PassBoth(Reads(Advance), text, OPEN + inside, tail, Block(depth), word, Block(depth), word, Block(depth), word);
  }

  predicate IsQuoted(mode: Mode, quote: Byte) {
    (mode == Literal && quote == QUOTE) || (mode == Character && quote == TICK)
  }

  function OnePiece(piece: Piece): (text: Text)
    ensures text != []
  {
    match piece case Plain(byte) => [byte] case Escaped(byte) => [ESCAPE, byte]
  }

  lemma {:induction false} PassPieces(pieces: seq<Piece>, tail: Text, mode: Mode, quote: Byte, word: bool)
    requires IsQuoted(mode, quote) && GoodPieces(pieces, quote)
    ensures Passes(Reads(Advance), PieceText(pieces), tail, mode, word, mode, word)
  {
    if pieces == [] {
      PassNothing(Reads(Advance), tail, mode, word);
    } else {
      var first, rest := OnePiece(pieces[0]), PieceText(pieces[1..]);
      assert pieces[0] in pieces;
      PassTurn(Advance, first, rest + tail, mode, word, mode, word);
      PassPieces(pieces[1..], tail, mode, quote, word);
      PassBoth(Reads(Advance), first, rest, tail, mode, word, mode, word, mode, word);
    }
  }

  lemma {:induction false} PassRaw(text: Text, tail: Text, hashes: nat, word: bool)
    requires forall i :: 0 <= i < |text| ==> !ClosesRaw(text[i..] + tail, hashes)
    ensures Passes(Reads(Advance), text, tail, Raw(hashes), word, Raw(hashes), word)
  {
    if text == [] {
      PassNothing(Reads(Advance), tail, Raw(hashes), word);
    } else {
      ReadOn(text, tail);
      var first, rest := [text[0]], text[1..];
      assert text[0..] + tail == first + (rest + tail);
      forall i | 0 <= i < |rest| ensures !ClosesRaw(rest[i..] + tail, hashes) {
        assert rest[i..] == text[i + 1..];
      }
      PassTurn(Advance, first, rest + tail, Raw(hashes), word, Raw(hashes), word);
      PassRaw(rest, tail, hashes, word);
      PassBoth(Reads(Advance), first, rest, tail, Raw(hashes), word, Raw(hashes), word, Raw(hashes), word);
    }
  }

  predicate Ends(tail: Text) {
    tail == [] || Separator(tail[0])
  }

  lemma {:induction false} HashesStop(rest: Text, at: nat, stop: nat)
    requires at <= stop < |rest| && rest[stop] != HASH
    ensures at + HashesAt(rest, at) <= stop
    decreases stop - at
  {
    if at < stop && rest[at] == HASH {
      HashesStop(rest, at + 1, stop);
    }
  }

  /** Without a quote before the next separator no raw string begins. */
  lemma NoRawStart(text: Text, tail: Text)
    requires text != [] && QUOTE !in text && Ends(tail)
    ensures RawStartOf(text + tail).None?
  {
    var rest := text + tail;
    var prefix := RawPrefix(rest);
    if prefix > 0 && tail != [] {
      HashesStop(rest, prefix, |text|);
    }
    var at := prefix + HashesAt(rest, prefix);
    if at < |text| {
      assert rest[at] == text[at];
      assert text[at] in text;
    }
  }

  lemma OtherTurn(text: Text, tail: Text, word: bool)
    requires GoodToken(Other(text)) && Ends(tail) && text != []
    ensures Advance([text[0]] + (text[1..] + tail), Code, word) == Move(1, Code, Word(text[0]), None)
    ensures GoodToken(Other(text[1..]))
  {
    ReadOn(text, tail);
    NoRawStart(text, tail);
    assert text[0] in text && text[0..] == text;
    var rest := text[1..];
    forall i | 0 <= i < |rest| - 1 ensures !Starts(rest[i..], SLASH, SLASH) && !Starts(rest[i..], SLASH, STAR) {
      assert rest[i..] == text[i + 1..];
    }
    assert |text| > 1 ==> !Starts(text[0..], SLASH, SLASH) && !Starts(text[0..], SLASH, STAR);
  }

  lemma {:induction false} PassOther(text: Text, tail: Text, word: bool) returns (after: bool)
    requires GoodToken(Other(text)) && Ends(tail)
    ensures Passes(Reads(Advance), text, tail, Code, word, Code, after)
  {
    if text == [] {
      PassNothing(Reads(Advance), tail, Code, word);
      after := word;
    } else {
      OtherTurn(text, tail, word);
      var first, rest := [text[0]], text[1..];
      assert text == first + rest;
      PassTurn(Advance, first, rest + tail, Code, word, Code, Word(text[0]));
      after := PassOther(rest, tail, Word(text[0]));
      PassBoth(Reads(Advance), first, rest, tail, Code, word, Code, Word(text[0]), Code, after);
    }
  }

  // ---------- tokens ----------

  ghost predicate EmitsAt(read: Reader, text: Text, tail: Text, comment: Option<Safety>, last: Mode, after: bool, line: nat) {
    read(text + tail, Code, line, false) == Emitted(comment, line) + read(tail, last, line + Newlines(text), after)
  }

  /** From plain code the text is passed over, finding one comment or nothing, and leads to another state. */
  ghost predicate Emits(read: Reader, text: Text, tail: Text, comment: Option<Safety>, last: Mode, after: bool) {
    forall line: nat :: EmitsAt(read, text, tail, comment, last, after, line)
  }

  function Emitted(comment: Option<Safety>, line: nat): seq<Comment> {
    if comment.Some? then [Comment(line, comment.value)] else []
  }

  lemma EmitTurn(rule: Rule, text: Text, tail: Text, comment: Option<Safety>, last: Mode, after: bool)
    requires text != [] && rule(text + tail, Code, false) == Move(|text|, last, after, comment)
    ensures Emits(Reads(rule), text, tail, comment, last, after)
  {
    assert (text + tail)[..|text|] == text && (text + tail)[|text|..] == tail;
  }

  lemma EmitThen(read: Reader, head: Text, rest: Text, tail: Text, comment: Option<Safety>,
                 middle: Mode, half: bool, last: Mode, after: bool)
    requires Emits(read, head, rest + tail, comment, middle, half)
    requires Passes(read, rest, tail, middle, half, last, after)
    ensures Emits(read, head + rest, tail, comment, last, after)
  {
    Assoc(head, rest, tail);
    NewlinesAdd(head, rest);
    forall line: nat ensures EmitsAt(read, head + rest, tail, comment, last, after, line) {
      assert EmitsAt(read, head, rest + tail, comment, middle, half, line);
      assert PassesAt(read, rest, tail, middle, half, last, after, line + Newlines(head));
    }
  }

  lemma EmitNothing(read: Reader, text: Text, tail: Text, last: Mode, after: bool)
    requires Passes(read, text, tail, Code, false, last, after)
    ensures Emits(read, text, tail, None, last, after)
  {
    forall line: nat ensures EmitsAt(read, text, tail, None, last, after, line) {
      assert PassesAt(read, text, tail, Code, false, last, after, line);
      assert Emitted(None, line) + read(tail, last, line + Newlines(text), after) ==
        read(tail, last, line + Newlines(text), after);
    }
  }

  lemma SafetyIsInTheText(text: Text, tail: Text)
    requires NEWLINE !in text && (tail == [] || tail[0] == NEWLINE)
    ensures SafetyOf([SLASH, SLASH] + text + tail) == if SAFETY_TEXT <= text then Justification else Prose
  {
    var rest := [SLASH, SLASH] + text + tail;
    assert SAFETY_MARK == [SLASH, SLASH] + SAFETY_TEXT;
    if SAFETY_TEXT <= text {
      assert rest[..10] == SAFETY_MARK;
    }
    if |text| < 8 {
      assert SAFETY_MARK[|text| + 2] != NEWLINE;
      assert tail != [] ==> rest[|text| + 2] == NEWLINE;
    } else {
      assert rest[..10] == [SLASH, SLASH] + text[..8];
      assert SAFETY_MARK[2..] == SAFETY_TEXT && (rest[..10])[2..] == text[..8];
    }
  }

  lemma LineCommentEmits(text: Text, tail: Text)
    requires NEWLINE !in text && (tail == [] || tail[0] == NEWLINE)
    ensures Emits(Reads(Advance), [SLASH, SLASH] + text, tail,
                  Some(if SAFETY_TEXT <= text then Justification else Prose), Line, false)
  {
    var first, rest := [SLASH], [SLASH] + text;
    assert first + (rest + tail) == [SLASH, SLASH] + text + tail && first + rest == [SLASH, SLASH] + text;
    SafetyIsInTheText(text, tail);
    EmitTurn(Advance, first, rest + tail, Some(if SAFETY_TEXT <= text then Justification else Prose), Line, false);
    PassLine(rest, tail, false);
    EmitThen(Reads(Advance), first, rest, tail, Some(if SAFETY_TEXT <= text then Justification else Prose), Line, false, Line, false);
  }

  lemma BlockCommentEmits(nest: Nest, tail: Text)
    requires GoodNest(nest)
    ensures Emits(Reads(Advance), OPEN + (NestText(nest) + SHUT), tail, Some(Prose), Code, false)
  {
    var rest := NestText(nest) + SHUT;
    EmitTurn(Advance, OPEN, rest + tail, Some(Prose), Block(1), false);
    PassNest(nest, tail, 1, false);
    EmitThen(Reads(Advance), OPEN, rest, tail, Some(Prose), Block(1), false, Code, false);
  }

  /** A quoted literal: its opening, its pieces, and the closing quote. */
  lemma QuotedPasses(open: Text, pieces: seq<Piece>, tail: Text, mode: Mode, quote: Byte, word: bool)
    requires IsQuoted(mode, quote) && GoodPieces(pieces, quote) && open != []
    requires Passes(Reads(Advance), open, (PieceText(pieces) + [quote]) + tail, Code, word, mode, false)
    ensures Passes(Reads(Advance), open + (PieceText(pieces) + [quote]), tail, Code, word, Code, false)
  {
    var body := PieceText(pieces);
    PassPieces(pieces, [quote] + tail, mode, quote, false);
    PassTurn(Advance, [quote], tail, mode, false, Code, false);
    PassBoth(Reads(Advance), body, [quote], tail, mode, false, mode, false, Code, false);
    PassBoth(Reads(Advance), open, body + [quote], tail, Code, word, mode, false, Code, false);
  }

  lemma {:induction false} CountHashes(before: Text, count: nat, after: Text)
    requires after != [] && after[0] != HASH
    ensures HashesAt(before + Hashes(count) + after, |before|) == count
    decreases count
  {
    var rest := before + Hashes(count) + after;
    if count > 0 {
      assert Hashes(count) == [HASH] + Hashes(count - 1);
      assert rest == (before + [HASH]) + Hashes(count - 1) + after;
      CountHashes(before + [HASH], count - 1, after);
    }
  }

  lemma RawOpens(kind: RawKind, hashes: nat, rest: Text)
    ensures var open := KindText(kind) + Hashes(hashes) + [QUOTE];
      Advance(open + rest, Code, false) == Move(|open|, Raw(hashes), true, None)
  {
    var open := KindText(kind) + Hashes(hashes) + [QUOTE];
    CountHashes(KindText(kind), hashes, [QUOTE] + rest);
    assert open + rest == KindText(kind) + Hashes(hashes) + ([QUOTE] + rest);
    assert RawPrefix(open + rest) == |KindText(kind)|;
  }

  /** The closing quote cannot come early: what would close the string is not in its text. */
  lemma ClosesLate(text: Text, hashes: nat, tail: Text, i: nat)
    requires i < |text| && !ClosesRaw(text[i..], hashes)
    ensures !ClosesRaw(text[i..] + ([QUOTE] + Hashes(hashes) + tail), hashes)
  {
    var here, close := text[i..], [QUOTE] + Hashes(hashes) + tail;
    if |here| <= hashes {
      assert (here + close)[|here|] == QUOTE;
    } else {
      assert forall j :: 0 <= j <= hashes ==> (here + close)[j] == here[j];
    }
  }

  lemma RawStringPasses(kind: RawKind, hashes: nat, text: Text, tail: Text)
    requires GoodToken(RawString(kind, hashes, text))
    ensures Passes(Reads(Advance), (KindText(kind) + Hashes(hashes) + [QUOTE]) + (text + ([QUOTE] + Hashes(hashes))), tail,
                   Code, false, Code, true)
  {
    var open, close := KindText(kind) + Hashes(hashes) + [QUOTE], [QUOTE] + Hashes(hashes);
    RawOpens(kind, hashes, (text + close) + tail);
    PassTurn(Advance, open, (text + close) + tail, Code, false, Raw(hashes), true);
    forall i | 0 <= i < |text| ensures !ClosesRaw(text[i..] + (close + tail), hashes) {
      ClosesLate(text, hashes, tail, i);
    }
    PassRaw(text, close + tail, hashes, true);
    PassTurn(Advance, close, tail, Raw(hashes), true, Code, true);
    PassBoth(Reads(Advance), text, close, tail, Raw(hashes), true, Raw(hashes), true, Code, true);
    PassBoth(Reads(Advance), open, text + close, tail, Code, false, Raw(hashes), true, Code, true);
  }

  /** Bytes of a character literal that are neither a tick nor an escape. */
  lemma {:induction false} AsPieces(bytes: Text) returns (pieces: seq<Piece>)
    requires forall byte :: byte in bytes ==> byte != TICK && byte != ESCAPE
    ensures PieceText(pieces) == bytes && GoodPieces(pieces, TICK)
  {
    if bytes == [] {
      pieces := [];
    } else {
      assert bytes[0] in bytes;
      forall byte | byte in bytes[1..] ensures byte in bytes {}
      var more := AsPieces(bytes[1..]);
      pieces := [Plain(bytes[0])] + more;
      assert pieces[1..] == more;
      assert bytes == [bytes[0]] + bytes[1..];
    }
  }

  lemma CharacterPasses(bytes: Text, tail: Text, word: bool)
    requires GoodToken(CharLiteral(if |bytes| == 1 then bytes[0] else 0)) && bytes != []
    requires |bytes| == 1 || GoodToken(WideCharLiteral(bytes))
    ensures Passes(Reads(Advance), [TICK] + (bytes + [TICK]), tail, Code, word, Code, false)
  {
    assert |bytes| == 1 ==> bytes == [bytes[0]];
    var pieces := AsPieces(bytes);
    var rest := [TICK] + ((bytes + [TICK]) + tail);
    assert rest[1] == bytes[0] && rest[|bytes| + 1] == TICK;
    PassTurn(Advance, [TICK], (bytes + [TICK]) + tail, Code, word, Character, false);
    QuotedPasses([TICK], pieces, tail, Character, TICK, word);
  }

  lemma EscapedCharacterPasses(first: Byte, pieces: seq<Piece>, tail: Text, word: bool)
    requires GoodPieces(pieces, TICK)
    ensures Passes(Reads(Advance), [TICK] + (PieceText([Escaped(first)] + pieces) + [TICK]), tail, Code, word, Code, false)
  {
    var all := [Escaped(first)] + pieces;
    assert PieceText(all)[0] == ESCAPE;
    PassTurn(Advance, [TICK], (PieceText(all) + [TICK]) + tail, Code, word, Character, false);
    QuotedPasses([TICK], all, tail, Character, TICK, word);
  }

  lemma LifetimePasses(name: Text, tail: Text) returns (after: bool)
    requires GoodToken(Lifetime(name)) && Ends(tail)
    ensures Passes(Reads(Advance), [TICK] + name, tail, Code, false, Code, after)
  {
    assert name[0] in name && (|name| > 1 ==> name[1] in name);
    var rest := [TICK] + (name + tail);
    assert rest[1] == name[0] && (|name| > 1 ==> rest[2] == name[1]) && (|name| == 1 && tail != [] ==> rest[2] == tail[0]);
    PassTurn(Advance, [TICK], name + tail, Code, false, Code, false);
    forall i | 0 <= i < |name| ensures name[i] in name {}
    after := PassOther(name, tail, false);
    PassBoth(Reads(Advance), [TICK], name, tail, Code, false, Code, false, Code, after);
  }

  function CommentKind(token: Token): Option<Safety> {
    match token
    case LineComment(text) => Some(if SAFETY_TEXT <= text then Justification else Prose)
    case BlockComment(_) => Some(Prose)
    case _ => None
  }

  lemma StringPasses(pieces: seq<Piece>, tail: Text, word: bool)
    requires GoodPieces(pieces, QUOTE)
    ensures Passes(Reads(Advance), TokenText(StringLiteral(pieces)), tail, Code, word, Code, false)
  {
    PassTurn(Advance, [QUOTE], (PieceText(pieces) + [QUOTE]) + tail, Code, word, Literal, false);
    QuotedPasses([QUOTE], pieces, tail, Literal, QUOTE, word);
    assert TokenText(StringLiteral(pieces)) == [QUOTE] + (PieceText(pieces) + [QUOTE]);
  }

  lemma RawStringEmits(kind: RawKind, hashes: nat, text: Text, tail: Text)
    requires GoodToken(RawString(kind, hashes, text))
    ensures Emits(Reads(Advance), TokenText(RawString(kind, hashes, text)), tail, None, Code, true)
  {
    RawStringPasses(kind, hashes, text, tail);
    assert TokenText(RawString(kind, hashes, text)) ==
      (KindText(kind) + Hashes(hashes) + [QUOTE]) + (text + ([QUOTE] + Hashes(hashes)));
    EmitNothing(Reads(Advance), TokenText(RawString(kind, hashes, text)), tail, Code, true);
  }

  /** A literal is passed over wherever it begins, right after a word as well. */
  lemma LiteralPasses(token: Token, tail: Text, word: bool)
    requires IsLiteral(token) && GoodToken(token)
    ensures Passes(Reads(Advance), TokenText(token), tail, Code, word, Code, false)
  {
    match token {
      case StringLiteral(pieces) =>
        StringPasses(pieces, tail, word);
      case CharLiteral(byte) =>
        CharacterPasses([byte], tail, word);
        assert TokenText(token) == [TICK] + ([byte] + [TICK]);
      case WideCharLiteral(bytes) =>
        CharacterPasses(bytes, tail, word);
        assert TokenText(token) == [TICK] + (bytes + [TICK]);
      case EscapedCharLiteral(first, pieces) =>
        EscapedCharacterPasses(first, pieces, tail, word);
        assert ([Escaped(first)] + pieces)[1..] == pieces;
        assert TokenText(token) == [TICK] + (PieceText([Escaped(first)] + pieces) + [TICK]);
    }
  }

  lemma OpensWith(token: Token)
    requires IsLiteral(token)
    ensures TokenText(token) != [] && TokenText(token)[0] in [QUOTE, TICK]
  {}

  lemma PrefixedPasses(prefix: Byte, literal: Token, tail: Text)
    requires GoodToken(Prefixed(prefix, literal))
    ensures Passes(Reads(Advance), [prefix] + TokenText(literal), tail, Code, false, Code, false)
  {
    OpensWith(literal);
    PassTurn(Advance, [prefix], TokenText(literal) + tail, Code, false, Code, true);
    LiteralPasses(literal, tail, true);
    PassBoth(Reads(Advance), [prefix], TokenText(literal), tail, Code, false, Code, true, Code, false);
  }

  /** Every token is passed over as a whole, and only comments are found, each where it begins. */
  lemma TokenEmits(token: Token, tail: Text) returns (after: bool)
    requires GoodToken(token) && Ends(tail) && (token.LineComment? && tail != [] ==> tail[0] == NEWLINE)
    ensures Emits(Reads(Advance), TokenText(token), tail, CommentKind(token), if token.LineComment? then Line else Code, after)
    ensures token.LineComment? ==> !after
  {
    after := false;
    match token {
      case LineComment(text) =>
        LineCommentEmits(text, tail);
      case BlockComment(nest) =>
        BlockCommentEmits(nest, tail);
        assert TokenText(token) == OPEN + (NestText(nest) + SHUT);
      case RawString(kind, hashes, text) =>
        after := true;
        RawStringEmits(kind, hashes, text, tail);
      case Prefixed(prefix, literal) =>
        PrefixedPasses(prefix, literal, tail);
        EmitNothing(Reads(Advance), TokenText(token), tail, Code, false);
      case Lifetime(name) =>
        after := LifetimePasses(name, tail);
        EmitNothing(Reads(Advance), TokenText(token), tail, Code, after);
      case Other(text) =>
        after := PassOther(text, tail, false);
        EmitNothing(Reads(Advance), TokenText(token), tail, Code, after);
      case _ =>
        LiteralPasses(token, tail, false);
        EmitNothing(Reads(Advance), TokenText(token), tail, Code, false);
    }
  }

  lemma SeparatorPasses(separator: Byte, tail: Text, mode: Mode, word: bool)
    requires Separator(separator) && (mode == Code || (mode == Line && separator == NEWLINE && !word))
    ensures Passes(Reads(Advance), [separator], tail, mode, word, Code, false)
  {
    PassTurn(Advance, [separator], tail, mode, word, Code, false);
  }

  lemma ItemEmits(item: Item, tail: Text)
    requires GoodItem(item)
    ensures Emits(Reads(Advance), TokenText(item.token) + [item.separator], tail, CommentKind(item.token), Code, false)
  {
    var mode := if item.token.LineComment? then Line else Code;
    var after := TokenEmits(item.token, [item.separator] + tail);
    SeparatorPasses(item.separator, tail, mode, after);
    EmitThen(Reads(Advance), TokenText(item.token), [item.separator], tail, CommentKind(item.token), mode, after, Code, false);
  }

  lemma KindIsComment(token: Token, line: nat)
    ensures Emitted(CommentKind(token), line) == CommentOf(token, line)
  {}

  /** The item is read as its own comment, if it is one, and then the rest, whatever the rest. */
  ghost predicate ReadsItem(read: Reader, item: Item) {
    forall rest: Text :: Emits(read, ItemText(item), rest, CommentKind(item.token), Code, false)
  }

  ghost predicate ReadsLast(read: Reader, last: Token) {
    forall line: nat :: read(TokenText(last), Code, line, false) == CommentOf(last, line)
  }

  function ItemText(item: Item): Text {
    TokenText(item.token) + [item.separator]
  }

  lemma ItemIsRead(item: Item)
    requires GoodItem(item)
    ensures ReadsItem(Reads(Advance), item)
  {
    forall rest: Text ensures Emits(Reads(Advance), ItemText(item), rest, CommentKind(item.token), Code, false) {
      ItemEmits(item, rest);
    }
  }

  lemma LastIsRead(last: Token)
    requires GoodToken(last)
    ensures ReadsLast(Reads(Advance), last)
  {
    var after := TokenEmits(last, []);
    NothingLeft(Advance, last, if last.LineComment? then Line else Code, after);
  }

  lemma NothingLeft(rule: Rule, last: Token, mode: Mode, after: bool)
    requires Emits(Reads(rule), TokenText(last), [], CommentKind(last), mode, after)
    ensures ReadsLast(Reads(rule), last)
  {
    forall line: nat ensures Reads(rule)(TokenText(last), Code, line, false) == CommentOf(last, line) {
      KindIsComment(last, line);
      assert EmitsAt(Reads(rule), TokenText(last), [], CommentKind(last), mode, after, line);
      assert TokenText(last) + [] == TokenText(last);
      assert CommentOf(last, line) + [] == CommentOf(last, line);
    }
  }

  lemma FirstIsRead(read: Reader, first: Item, rest: Text, line: nat)
    requires ReadsItem(read, first)
    ensures read(ItemText(first) + rest, Code, line, false) ==
      CommentOf(first.token, line) + read(rest, Code, line + Newlines(ItemText(first)), false)
  {
    KindIsComment(first.token, line);
    assert Emits(read, ItemText(first), rest, CommentKind(first.token), Code, false);
    assert EmitsAt(read, ItemText(first), rest, CommentKind(first.token), Code, false, line);
  }

  lemma PrintedFirst(items: seq<Item>, last: Token, line: nat)
    requires items != []
    ensures Printed(items, last) == ItemText(items[0]) + Printed(items[1..], last)
    ensures Comments(items, last, line) ==
      CommentOf(items[0].token, line) + Comments(items[1..], last, line + Newlines(ItemText(items[0])))
  {}

  ghost predicate ReadsAll(read: Reader, items: seq<Item>) {
    forall i :: 0 <= i < |items| ==> ReadsItem(read, items[i])
  }

  /** What reads each item right reads all of them right. */
  lemma {:induction false} PrintedIsRead(read: Reader, items: seq<Item>, last: Token, line: nat)
    requires ReadsLast(read, last) && ReadsAll(read, items)
    ensures read(Printed(items, last), Code, line, false) == Comments(items, last, line)
  {
    if items != [] {
      PrintedFirst(items, last, line);
      FirstIsRead(read, items[0], Printed(items[1..], last), line);
      PrintedIsRead(read, items[1..], last, line + Newlines(ItemText(items[0])));
    }
  }

  /** Scanning what was printed finds exactly the comments. */
  lemma PrintedIsScanned(items: seq<Item>, last: Token, line: nat)
    requires GoodToken(last) && forall item :: item in items ==> GoodItem(item)
    ensures Scan(Advance, Printed(items, last), Code, line, false) == Comments(items, last, line)
  {
    LastIsRead(last);
    forall i | 0 <= i < |items| ensures ReadsItem(Reads(Advance), items[i]) {
      ItemIsRead(items[i]);
    }
    PrintedIsRead(Reads(Advance), items, last, line);
  }

  /** For any source made of tokens with separators between them, the comments found are exactly the comment
    tokens, in order and each with its line. */
  lemma FindsExactlyTheComments(items: seq<Item>, last: Token)
    requires GoodToken(last) && forall item :: item in items ==> GoodItem(item)
    ensures Found(Printed(items, last)) == Comments(items, last, 1)
  {
    PrintedIsScanned(items, last, 1);
  }
}
