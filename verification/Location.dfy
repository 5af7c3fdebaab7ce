/** Absolute locations on Unix and Windows: reading and printing them, containment, and the keys they are
  remembered under. */
module Locations {
  import opened Common

  type Bits = seq<Byte>

  datatype Syntax = Unix | Windows

  datatype Case = Sensitive | Insensitive

  datatype LocationError = Relative | Navigation | EmptyName | Separator | MissingShare

  const SLASH: Byte := 47
  const BACKSLASH: Byte := 92
  const DOT: Byte := 46
  const COLON: Byte := 58
  const QUESTION: Byte := 63

  function SeparatorOf(syntax: Syntax): Byte {
    if syntax == Unix then SLASH else BACKSLASH
  }

  predicate IsSeparator(syntax: Syntax, byte: Byte) {
    byte == SLASH || (syntax == Windows && byte == BACKSLASH)
  }

  predicate Clean(name: Bits, syntax: Syntax) {
    forall byte :: byte in name ==> byte != 0 && !IsSeparator(syntax, byte)
  }

  /** `Name::new` */
  function NameError(raw: Bits, syntax: Syntax): Option<LocationError> {
    if raw == [] then Some(EmptyName)
    else if raw == [DOT] || raw == [DOT, DOT] then Some(Navigation)
    else if !Clean(raw, syntax) then Some(Separator)
    else None
  }

  predicate IsName(name: Bits, syntax: Syntax) {
    NameError(name, syntax).None?
  }

  predicate AreNames(names: seq<Bits>, syntax: Syntax) {
    forall i :: 0 <= i < |names| ==> IsName(names[i], syntax)
  }

  datatype Root = UnixRoot | Drive(letter: Byte) | Unc(server: Bits, share: Bits)

  datatype Location = Location(syntax: Syntax, root: Root, names: seq<Bits>)

  predicate Upper(byte: Byte) { 65 <= byte <= 90 }

  predicate Letter(byte: Byte) { Upper(byte) || 97 <= byte <= 122 }

  function ToUpper(byte: Byte): Byte { if 97 <= byte <= 122 then byte - 32 else byte }

  /** What every parsed location is. */
  predicate Valid(l: Location) {
    && AreNames(l.names, l.syntax)
    && match l.root
       case UnixRoot => l.syntax == Unix
       case Drive(letter) => l.syntax == Windows && Upper(letter)
       case Unc(server, share) => l.syntax == Windows && IsName(server, Windows) && IsName(share, Windows)
  }

  // ---------- reading ----------

  /** The bytes up to the first separator. */
  function Head(raw: Bits, syntax: Syntax): (head: Bits)
    ensures |head| <= |raw| && head == raw[..|head|]
    ensures forall byte :: byte in head ==> !IsSeparator(syntax, byte)
    ensures |head| < |raw| ==> IsSeparator(syntax, raw[|head|])
  {
    if raw == [] || IsSeparator(syntax, raw[0]) then [] else [raw[0]] + Head(raw[1..], syntax)
  }

  /** `names`: the pieces between separators, without empty ones and `.`; the first bad one is the error. */
  function NamesOf(raw: Bits, syntax: Syntax): Result<seq<Bits>, LocationError>
    decreases |raw|
  {
    var head := Head(raw, syntax);
    var skipped := head == [] || head == [DOT];
    if !skipped && NameError(head, syntax).Some? then Err(NameError(head, syntax).value)
    else
      var mine := if skipped then [] else [head];
      if |head| == |raw| then Ok(mine)
      else match NamesOf(raw[|head| + 1..], syntax)
           case Ok(more) => Ok(mine + more)
           case Err(error) => Err(error)
  }

  function ParseUnix(raw: Bits): Result<Location, LocationError> {
    if raw == [] || raw[0] != SLASH then Err(Relative)
    else match NamesOf(raw[1..], Unix)
         case Ok(names) => Ok(Location(Unix, UnixRoot, names))
         case Err(error) => Err(error)
  }

  // "\\?\"
  const VERBATIM: Bits := [BACKSLASH, BACKSLASH, QUESTION, BACKSLASH]
  // "\\.\"
  const DEVICE: Bits := [BACKSLASH, BACKSLASH, DOT, BACKSLASH]
  // "UNC\"
  const UNC_MARK: Bits := [85, 78, 67, BACKSLASH]

  function ParseUnc(rest: Bits): Result<Location, LocationError> {
    match NamesOf(rest, Windows)
    case Err(error) => Err(error)
    case Ok(parts) =>
      if |parts| < 2 then Err(MissingShare)
      else Ok(Location(Windows, Unc(parts[0], parts[1]), parts[2..]))
  }

  function ParseDrive(raw: Bits): Result<Location, LocationError> {
    if |raw| >= 3 && Letter(raw[0]) && raw[1] == COLON && IsSeparator(Windows, raw[2]) then
      match NamesOf(raw[3..], Windows)
      case Ok(names) => Ok(Location(Windows, Drive(ToUpper(raw[0])), names))
      case Err(error) => Err(error)
    else if |raw| == 2 && Letter(raw[0]) && raw[1] == COLON then
      Ok(Location(Windows, Drive(ToUpper(raw[0])), []))
    else Err(Relative)
  }

  function ParseWindows(raw: Bits): Result<Location, LocationError> {
    if VERBATIM + UNC_MARK <= raw || DEVICE + UNC_MARK <= raw then ParseUnc(raw[8..])
    else if VERBATIM <= raw || DEVICE <= raw then ParseDrive(raw[4..])
    else if |raw| >= 2 && IsSeparator(Windows, raw[0]) && IsSeparator(Windows, raw[1]) then ParseUnc(raw[2..])
    else ParseDrive(raw)
  }

  function Parse(syntax: Syntax, raw: Bits): Result<Location, LocationError> {
    if syntax == Unix then ParseUnix(raw) else ParseWindows(raw)
  }

  lemma {:induction false} NamesOfAreNames(raw: Bits, syntax: Syntax)
    ensures NamesOf(raw, syntax).Ok? ==> AreNames(NamesOf(raw, syntax).value, syntax)
    decreases |raw|
  {
    var head := Head(raw, syntax);
    if |head| < |raw| {
      NamesOfAreNames(raw[|head| + 1..], syntax);
    }
  }

  /** Whatever is read is a valid location of that syntax. */
  lemma ParsedIsValid(syntax: Syntax, raw: Bits)
    ensures Parse(syntax, raw).Ok? ==> Valid(Parse(syntax, raw).value) && Parse(syntax, raw).value.syntax == syntax
  {
    if syntax == Unix {
      if raw != [] { NamesOfAreNames(raw[1..], Unix); }
    } else {
      if |raw| >= 8 { UncIsValid(raw[8..]); }
      if |raw| >= 4 { DriveIsValid(raw[4..]); }
      if |raw| >= 2 { UncIsValid(raw[2..]); }
      DriveIsValid(raw);
    }
  }

  lemma UncIsValid(rest: Bits)
    ensures ParseUnc(rest).Ok? ==> Valid(ParseUnc(rest).value) && ParseUnc(rest).value.syntax == Windows
  {
    NamesOfAreNames(rest, Windows);
  }

  lemma DriveIsValid(raw: Bits)
    ensures ParseDrive(raw).Ok? ==> Valid(ParseDrive(raw).value) && ParseDrive(raw).value.syntax == Windows
  {
    if |raw| >= 3 { NamesOfAreNames(raw[3..], Windows); }
  }

  // ---------- what a text means ----------

  /** Pieces with the given separators between them. */
  function Interleaved(pieces: seq<Bits>, separators: Bits): Bits
    requires |pieces| == |separators| + 1
  {
    if separators == [] then pieces[0] else pieces[0] + [separators[0]] + Interleaved(pieces[1..], separators[1..])
  }

  /** The pieces of a text: no separators in them, and nothing but separators between them. */
  ghost predicate ArePieces(pieces: seq<Bits>, separators: Bits, syntax: Syntax) {
    && |pieces| == |separators| + 1
    && (forall i, k :: 0 <= i < |pieces| && 0 <= k < |pieces[i]| ==> !IsSeparator(syntax, pieces[i][k]))
    && (forall i :: 0 <= i < |separators| ==> IsSeparator(syntax, separators[i]))
  }

  /** The pieces that are neither empty nor `.`, in order. */
  function Meant(pieces: seq<Bits>): seq<Bits> {
    if pieces == [] then []
    else (if pieces[0] in [[], [46]] then [] else [pieces[0]]) + Meant(pieces[1..])
  }

  /** A piece that is `..`, or has a zero byte in it, is refused. */
  function Refusal(piece: Bits): Option<LocationError> {
    if piece == [46, 46] then Some(Navigation) else if 0 in piece then Some(Separator) else None
  }

  function FirstRefusal(pieces: seq<Bits>): Option<LocationError> {
    if pieces == [] then None
    else if Refusal(pieces[0]).Some? then Refusal(pieces[0]) else FirstRefusal(pieces[1..])
  }

  lemma {:induction false} RefusedExactlyWhen(pieces: seq<Bits>)
    ensures FirstRefusal(pieces).Some? <==> exists i :: 0 <= i < |pieces| && (pieces[i] == [46, 46] || 0 in pieces[i])
    ensures FirstRefusal(pieces).Some? ==>
      exists i :: 0 <= i < |pieces| && FirstRefusal(pieces) == Refusal(pieces[i])
        && forall j :: 0 <= j < i ==> pieces[j] != [46, 46] && 0 !in pieces[j]
  {
    if pieces != [] && Refusal(pieces[0]).None? {
      RefusedExactlyWhen(pieces[1..]);
      assert forall i :: 0 < i < |pieces| ==> pieces[i] == pieces[1..][i - 1];
      if FirstRefusal(pieces).Some? {
        var i :| 0 <= i < |pieces[1..]| && FirstRefusal(pieces[1..]) == Refusal(pieces[1..][i])
                 && forall j :: 0 <= j < i ==> pieces[1..][j] != [46, 46] && 0 !in pieces[1..][j];
        assert FirstRefusal(pieces) == Refusal(pieces[i + 1]);
      }
    } else if pieces != [] {
      assert FirstRefusal(pieces) == Refusal(pieces[0]);
    }
  }

  /** Whatever a text is made of, it names the pieces that are neither empty nor `.`, unless one of them is
    refused, and then it is refused for the first such piece. */
  lemma {:induction false} NamesMean(pieces: seq<Bits>, separators: Bits, syntax: Syntax)
    requires ArePieces(pieces, separators, syntax)
    ensures NamesOf(Interleaved(pieces, separators), syntax) ==
      match FirstRefusal(pieces) case Some(error) => Err(error) case None => Ok(Meant(pieces))
    decreases |pieces|
  {
    var first, text := pieces[0], Interleaved(pieces, separators);
    forall byte | byte in first ensures !IsSeparator(syntax, byte) {
      var k :| 0 <= k < |first| && first[k] == byte;
    }
    PieceMeans(first, syntax);
    if separators == [] {
      HeadIsName(text, first, syntax);
      assert pieces == [first];
      LastMeans(first, syntax);
    } else {
      var rest := Interleaved(pieces[1..], separators[1..]);
      assert text[|first|] == separators[0] && first <= text && text[|first| + 1..] == rest;
      HeadIsName(text, first, syntax);
      NamesMean(pieces[1..], separators[1..], syntax);
    }
  }

  lemma LastMeans(piece: Bits, syntax: Syntax)
    requires Head(piece, syntax) == piece
    ensures NamesOf(piece, syntax) ==
      match FirstRefusal([piece]) case Some(error) => Err(error) case None => Ok(Meant([piece]))
  {
    PieceMeans(piece, syntax);
    assert [piece][1..] == [];
    var mine: seq<Bits> := if piece in [[], [46]] then [] else [piece];
    assert mine + [] == mine;
  }

  lemma PieceMeans(piece: Bits, syntax: Syntax)
    requires forall byte :: byte in piece ==> !IsSeparator(syntax, byte)
    ensures piece != [] && piece != [46] ==> NameError(piece, syntax) == Refusal(piece)
    ensures piece in [[], [46]] ==> Refusal(piece).None?
  {}

  /** What no name may be, and what it is refused as. */
  lemma NameErrorExactlyWhen(raw: Bits, syntax: Syntax)
    ensures NameError(raw, syntax) == Some(EmptyName) <==> raw == []
    ensures NameError(raw, syntax) == Some(Navigation) <==> raw == [46] || raw == [46, 46]
    ensures NameError(raw, syntax).None? <==>
      raw != [] && raw != [46] && raw != [46, 46] && 0 !in raw && 47 !in raw && (syntax == Windows ==> 92 !in raw)
    ensures NameError(raw, syntax).Some? ==> NameError(raw, syntax).value in {EmptyName, Navigation, Separator}
  {}

  /** Every text is made of pieces. */
  lemma {:induction false} MadeOfPieces(raw: Bits, syntax: Syntax) returns (pieces: seq<Bits>, separators: Bits)
    ensures ArePieces(pieces, separators, syntax) && Interleaved(pieces, separators) == raw
    decreases |raw|
  {
    var head := Head(raw, syntax);
    if |head| == |raw| {
      pieces, separators := [head], [];
    } else {
      var more, between := MadeOfPieces(raw[|head| + 1..], syntax);
      pieces, separators := [head] + more, [raw[|head|]] + between;
      assert pieces[1..] == more && separators[1..] == between;
      assert raw == head + [raw[|head|]] + raw[|head| + 1..];
    }
  }

  lemma {:induction false} NeverRelative(raw: Bits, syntax: Syntax)
    ensures NamesOf(raw, syntax).Err? ==> NamesOf(raw, syntax).error in {Navigation, Separator}
    decreases |raw|
  {
    var head := Head(raw, syntax);
    if |head| < |raw| {
      NeverRelative(raw[|head| + 1..], syntax);
    }
  }

  /** A Unix text names the pieces after its leading slash, and is relative exactly when it has none. */
  lemma ParsesUnixAs(raw: Bits)
    ensures Parse(Unix, raw) == Err(Relative) <==> raw == [] || raw[0] != 47
    ensures raw != [] && raw[0] == 47 ==>
      Parse(Unix, raw) ==
      match NamesOf(raw[1..], Unix) case Ok(names) => Ok(Location(Unix, UnixRoot, names)) case Err(error) => Err(error)
  {
    if raw != [] {
      NeverRelative(raw[1..], Unix);
    }
  }

  // `\\?\` and `\\.\`, and either with `UNC\`
  predicate LeadsVerbatim(lead: Bits) {
    lead in [[92, 92, 63, 92], [92, 92, 46, 92]]
  }

  predicate LeadsUnc(lead: Bits) {
    lead in [[92, 92, 63, 92, 85, 78, 67, 92], [92, 92, 46, 92, 85, 78, 67, 92]]
  }

  predicate BothSlashes(byte: Byte) {
    byte == 47 || byte == 92
  }

  /** A letter, a colon, and, if there is more, a separator. */
  predicate IsDriveText(text: Bits) {
    && |text| >= 2 && (65 <= text[0] <= 90 || 97 <= text[0] <= 122) && text[1] == 58
    && (|text| > 2 ==> BothSlashes(text[2]))
  }

  lemma DriveMeans(text: Bits)
    requires IsDriveText(text)
    ensures ParseDrive(text) ==
      match NamesOf(text[Min(3, |text|)..], Windows)
      case Ok(names) => Ok(Location(Windows, Drive(if text[0] >= 97 then text[0] - 32 else text[0]), names))
      case Err(error) => Err(error)
  {
    if |text| == 2 {
      assert text[2..] == [] && NamesOf([], Windows) == Ok([]);
    }
  }

  lemma LeadIs(raw: Bits, lead: Bits)
    ensures lead <= raw <==> |raw| >= |lead| && raw[..|lead|] == lead
  {}

  /** What a Windows text is read as depends on how it begins. */
  lemma Dispatched(raw: Bits)
    ensures ParseWindows(raw) ==
      if |raw| >= 8 && LeadsUnc(raw[..8]) then ParseUnc(raw[8..])
      else if |raw| >= 4 && LeadsVerbatim(raw[..4]) then ParseDrive(raw[4..])
      else if |raw| >= 2 && BothSlashes(raw[0]) && BothSlashes(raw[1]) then ParseUnc(raw[2..])
      else ParseDrive(raw)
  {
    assert VERBATIM == [92, 92, 63, 92] && DEVICE == [92, 92, 46, 92];
    assert VERBATIM + UNC_MARK == [92, 92, 63, 92, 85, 78, 67, 92] && DEVICE + UNC_MARK == [92, 92, 46, 92, 85, 78, 67, 92];
    LeadIs(raw, VERBATIM + UNC_MARK);
    LeadIs(raw, DEVICE + UNC_MARK);
    LeadIs(raw, VERBATIM);
    LeadIs(raw, DEVICE);
  }

  /** A drive is read with or without a verbatim lead, and its letter comes out in upper case. */
  lemma ParsesDriveAs(lead: Bits, text: Bits)
    requires (lead == [] || LeadsVerbatim(lead)) && IsDriveText(text)
    ensures var letter := if text[0] >= 97 then text[0] - 32 else text[0];
      && 65 <= letter <= 90
      && Parse(Windows, lead + text) ==
         match NamesOf(text[Min(3, |text|)..], Windows)
         case Ok(names) => Ok(Location(Windows, Drive(letter), names))
         case Err(error) => Err(error)
  {
    DriveMeans(text);
    DrivesAreDispatched(lead, text);
  }

  lemma DrivesAreDispatched(lead: Bits, text: Bits)
    requires (lead == [] || LeadsVerbatim(lead)) && IsDriveText(text)
    ensures Parse(Windows, lead + text) == ParseDrive(text)
  {
    var raw := lead + text;
    Dispatched(raw);
    if lead == [] {
      assert raw == text;
      assert |raw| >= 4 ==> raw[..4][0] == text[0];
      assert |raw| >= 8 ==> raw[..8][0] == text[0];
    } else {
      assert raw[..4] == lead && raw[4..] == text;
      assert |raw| >= 8 ==> raw[..8][5] == text[1];
    }
  }

  /** A server and a share, and the names below; a text that names fewer than two pieces has no share. */
  function UncMeans(text: Bits): Result<Location, LocationError> {
    match NamesOf(text, Windows)
    case Err(error) => Err(error)
    case Ok(names) =>
      if |names| <= 1 then Err(MissingShare) else Ok(Location(Windows, Unc(names[0], names[1]), names[2..]))
  }

  /** A UNC text: two separators in front that are not a verbatim lead, or one of the UNC leads. */
  lemma ParsesUncAs(lead: Bits, text: Bits)
    requires
      || LeadsUnc(lead)
      || (|lead| == 2 && BothSlashes(lead[0]) && BothSlashes(lead[1])
          && !exists verbatim :: LeadsVerbatim(verbatim) && verbatim <= lead + text)
    ensures Parse(Windows, lead + text) == UncMeans(text)
  {
    var raw := lead + text;
    assert raw[|lead|..] == text;
    Dispatched(raw);
    if LeadsUnc(lead) {
      assert raw[..8] == lead;
    } else {
      assert raw[0] == lead[0] && raw[1] == lead[1];
      if |raw| >= 4 {
        assert raw[..4] <= raw;
        assert !LeadsVerbatim(raw[..4]);
      }
      if |raw| >= 8 {
        var start: Bits, verbatim: Bits, device: Bits := raw[..8], [92, 92, 63, 92, 85, 78, 67, 92], [92, 92, 46, 92, 85, 78, 67, 92];
        assert start[..4] == raw[..4];
        assert verbatim[..4] == [92, 92, 63, 92] && device[..4] == [92, 92, 46, 92];
      }
    }
  }

  /** A Windows text is relative exactly when it is neither a drive, with or without a verbatim lead, nor UNC. */
  lemma RelativeExactlyWhen(raw: Bits)
    ensures Parse(Windows, raw) == Err(Relative) <==>
      var verbatim := |raw| >= 4 && LeadsVerbatim(raw[..4]);
      var unc := |raw| >= 8 && LeadsUnc(raw[..8]);
      && !unc
      && (if verbatim then !IsDriveText(raw[4..])
          else !(|raw| >= 2 && BothSlashes(raw[0]) && BothSlashes(raw[1])) && !IsDriveText(raw))
  {
    Dispatched(raw);
    if |raw| >= 8 { UncNeverRelative(raw[8..]); }
    if |raw| >= 4 { DriveRelative(raw[4..]); }
    if |raw| >= 2 { UncNeverRelative(raw[2..]); }
    DriveRelative(raw);
  }

  lemma UncNeverRelative(rest: Bits)
    ensures ParseUnc(rest) != Err(Relative)
  {
    NeverRelative(rest, Windows);
  }

  lemma DriveRelative(raw: Bits)
    ensures ParseDrive(raw) == Err(Relative) <==> !IsDriveText(raw)
  {
    if |raw| >= 3 { NeverRelative(raw[3..], Windows); }
  }

  // ---------- printing ----------

  /** Names with a separator between each two. */
  function Joined(names: seq<Bits>, separator: Byte): Bits {
    if names == [] then []
    else if |names| == 1 then names[0]
    else names[0] + [separator] + Joined(names[1..], separator)
  }

  method Join(names: seq<Bits>, separator: Byte) returns (joined: Bits)
    ensures joined == Joined(names, separator)
  {
    joined := [];
    for index := 0 to |names|
      invariant joined == Joined(names[..index], separator)
    {
      if index > 0 {
        joined := joined + [separator];
      }
      joined := joined + names[index];
      JoinedSnoc(names[..index], names[index], separator);
      assert names[..index + 1] == names[..index] + [names[index]];
    }
    assert names[..|names|] == names;
  }

  lemma {:induction false} JoinedSnoc(names: seq<Bits>, last: Bits, separator: Byte)
    ensures Joined(names + [last], separator) ==
      (if names == [] then [] else Joined(names, separator) + [separator]) + last
  {
    if names != [] {
      assert (names + [last])[1..] == names[1..] + [last];
      JoinedSnoc(names[1..], last, separator);
    }
  }

  function RootText(root: Root, more: bool): Bits {
    match root
    case UnixRoot => [SLASH]
    case Drive(letter) => [letter, COLON, BACKSLASH]
    case Unc(server, share) =>
      [BACKSLASH, BACKSLASH] + server + [BACKSLASH] + share + if more then [BACKSLASH] else []
  }

  /** `Display`, for names that are valid UTF-8 and so are printed as they are. */
  function Shown(l: Location): Bits {
    RootText(l.root, l.names != []) + Joined(l.names, SeparatorOf(l.syntax))
  }

  method Display(l: Location) returns (text: Bits)
    ensures text == Shown(l)
  {
    text := RootText(l.root, l.names != []);
    var joined := Join(l.names, SeparatorOf(l.syntax));
    text := text + joined;
  }

  lemma HeadOfName(name: Bits, rest: Bits, syntax: Syntax)
    requires forall byte :: byte in name ==> !IsSeparator(syntax, byte)
    ensures Head(name, syntax) == name
    ensures Head(name + [SeparatorOf(syntax)] + rest, syntax) == name
  {
    HeadIsName(name, name, syntax);
    HeadIsName(name + [SeparatorOf(syntax)] + rest, name, syntax);
  }

  lemma HeadIsName(raw: Bits, name: Bits, syntax: Syntax)
    requires name <= raw && (|name| < |raw| ==> IsSeparator(syntax, raw[|name|]))
    requires forall byte :: byte in name ==> !IsSeparator(syntax, byte)
    ensures Head(raw, syntax) == name
  {
    var head := Head(raw, syntax);
    assert forall i :: 0 <= i < |name| ==> raw[i] == name[i] && name[i] in name;
    assert forall i :: 0 <= i < |head| ==> head[i] == raw[i] && head[i] in head;
  }

  lemma OneMoreName(name: Bits, rest: Bits, names: seq<Bits>, syntax: Syntax)
    requires IsName(name, syntax) && NamesOf(rest, syntax) == Ok(names)
    ensures NamesOf(name + [SeparatorOf(syntax)] + rest, syntax) == Ok([name] + names)
  {
    HeadOfName(name, rest, syntax);
    assert (name + [SeparatorOf(syntax)] + rest)[|name| + 1..] == rest;
  }

  lemma OneName(name: Bits, syntax: Syntax)
    requires IsName(name, syntax)
    ensures NamesOf(name, syntax) == Ok([name])
  {
    HeadOfName(name, [], syntax);
  }

  lemma {:induction false} JoinedReadsBack(names: seq<Bits>, syntax: Syntax)
    requires AreNames(names, syntax)
    ensures NamesOf(Joined(names, SeparatorOf(syntax)), syntax) == Ok(names)
  {
    if |names| == 1 {
      OneName(names[0], syntax);
      assert names == [names[0]];
    } else if names != [] {
      JoinedReadsBack(names[1..], syntax);
      assert Joined(names, SeparatorOf(syntax)) == names[0] + [SeparatorOf(syntax)] + Joined(names[1..], SeparatorOf(syntax));
      OneMoreName(names[0], Joined(names[1..], SeparatorOf(syntax)), names[1..], syntax);
      assert names == [names[0]] + names[1..];
    }
  }

  lemma JoinedUnc(server: Bits, share: Bits, names: seq<Bits>)
    ensures RootText(Unc(server, share), names != []) + Joined(names, BACKSLASH) ==
      [BACKSLASH, BACKSLASH] + Joined([server, share] + names, BACKSLASH)
  {
    var all := [server, share] + names;
    assert all[1..] == [share] + names && all[1..][1..] == names;
    if names == [] {
      assert all == [server, share] && all[1..] == [share];
    }
  }

  lemma UncPrefix(server: Bits, share: Bits, names: seq<Bits>)
    requires IsName(server, Windows)
    ensures var raw := Shown(Location(Windows, Unc(server, share), names));
      && |raw| >= 3 && raw[0] == raw[1] == BACKSLASH && raw[2] == server[0]
      && (VERBATIM <= raw <==> server == [QUESTION])
      && !(DEVICE <= raw)
  {
    var raw := Shown(Location(Windows, Unc(server, share), names));
    assert raw[2] == server[0];
    if |server| > 1 {
      assert server[1] in server;
      assert raw[3] == server[1];
    } else {
      assert raw[3] == BACKSLASH && server == [server[0]];
      assert VERBATIM <= raw <==> raw[..4] == VERBATIM;
    }
  }

  /** A UNC location whose server is not `?` is read back. */
  lemma UncReadsBack(l: Location)
    requires Valid(l) && l.root.Unc? && l.root.server != [QUESTION]
    ensures ParseWindows(Shown(l)) == Ok(l)
  {
    var server, share := l.root.server, l.root.share;
    var raw, all := Shown(l), [server, share] + l.names;
    UncPrefix(server, share, l.names);
    assert VERBATIM + UNC_MARK <= raw ==> VERBATIM <= raw;
    assert DEVICE + UNC_MARK <= raw ==> DEVICE <= raw;
    JoinedUnc(server, share, l.names);
    assert raw[2..] == Joined(all, BACKSLASH);
    JoinedReadsBack(all, Windows);
    assert all[2..] == l.names;
  }

  lemma DriveReadsBack(l: Location)
    requires Valid(l) && l.root.Drive?
    ensures ParseWindows(Shown(l)) == Ok(l)
  {
    var raw := Shown(l);
    assert raw[0] == l.root.letter && raw[1] == COLON && raw[2] == BACKSLASH;
    assert raw[3..] == Joined(l.names, BACKSLASH);
    JoinedReadsBack(l.names, Windows);
    FirstOf(VERBATIM, raw);
    FirstOf(DEVICE, raw);
    FirstOf(VERBATIM + UNC_MARK, raw);
    FirstOf(DEVICE + UNC_MARK, raw);
  }

  lemma FirstOf(prefix: Bits, raw: Bits)
    requires prefix != [] && raw != []
    ensures prefix <= raw ==> raw[0] == prefix[0]
  {}

  lemma UnixReadsBack(l: Location)
    requires Valid(l) && l.root.UnixRoot?
    ensures ParseUnix(Shown(l)) == Ok(l)
  {
    assert Shown(l)[1..] == Joined(l.names, SLASH);
    JoinedReadsBack(l.names, Unix);
  }

  lemma {:induction false} AtMostPieces(raw: Bits, syntax: Syntax)
    ensures NamesOf(raw, syntax).Ok? ==> |Joined(NamesOf(raw, syntax).value, SeparatorOf(syntax))| <= |raw|
    decreases |raw|
  {
    var head := Head(raw, syntax);
    if |head| < |raw| {
      var rest := raw[|head| + 1..];
      AtMostPieces(rest, syntax);
      if NamesOf(rest, syntax).Ok? {
        var more := NamesOf(rest, syntax).value;
        assert ([head] + more)[1..] == more && [] + more == more;
      }
    }
  }

  /** A UNC location of the server `?` prints as a verbatim path, which is never read as that location. */
  lemma QuestionIsLost(l: Location)
    requires Valid(l) && l.root.Unc? && l.root.server == [QUESTION]
    ensures ParseWindows(Shown(l)) != Ok(l)
  {
    var raw := Shown(l);
    UncPrefix(l.root.server, l.root.share, l.names);
    var all := [l.root.server, l.root.share] + l.names;
    JoinedUnc(l.root.server, l.root.share, l.names);
    assert |Joined(all, BACKSLASH)| == |raw| - 2;
    if VERBATIM + UNC_MARK <= raw {
      AtMostPieces(raw[8..], Windows);
      UncParts(raw[8..]);
    }
  }

  lemma UncParts(rest: Bits)
    ensures ParseUnc(rest).Ok? ==>
      NamesOf(rest, Windows) ==
      Ok([ParseUnc(rest).value.root.server, ParseUnc(rest).value.root.share] + ParseUnc(rest).value.names)
  {
    if ParseUnc(rest).Ok? {
      var parts := NamesOf(rest, Windows).value;
      assert parts == [parts[0], parts[1]] + parts[2..];
    }
  }

  /** A valid location is read back from what it prints as, exactly unless it is of the UNC server `?`. */
  lemma ReadsBackExactlyWhen(l: Location)
    requires Valid(l)
    ensures Parse(l.syntax, Shown(l)) == Ok(l) <==> !(l.root.Unc? && l.root.server == [QUESTION])
  {
    match l.root {
      case UnixRoot => UnixReadsBack(l);
      case Drive(_) => DriveReadsBack(l);
      case Unc(server, _) =>
        if server == [QUESTION] {
          QuestionIsLost(l);
        } else {
          UncReadsBack(l);
        }
    }
  }

  // ---------- containment ----------

  /** Lower-casing, as Unicode has it for valid text. */
  type Lowering = Bits -> Bits

  function Fold(lower: Lowering, name: Bits, letters: Case): Bits {
    if letters == Sensitive then name else lower(name)
  }

  function Folded(lower: Lowering, names: seq<Bits>, letters: Case): seq<Bits> {
    seq(|names|, i requires 0 <= i < |names| => Fold(lower, names[i], letters))
  }

  /** Servers are compared without case whatever the case of the rest. */
  predicate SameRoot(lower: Lowering, a: Root, b: Root, letters: Case) {
    match (a, b)
    case (UnixRoot, UnixRoot) => true
    case (Drive(left), Drive(right)) => left == right
    case (Unc(server, share), Unc(otherServer, otherShare)) =>
      lower(server) == lower(otherServer) && Fold(lower, share, letters) == Fold(lower, otherShare, letters)
    case (_, _) => false
  }

  /** `relative`: the names of the inner location below the outer one. */
  function RelativeTo(lower: Lowering, outer: Location, inner: Location, letters: Case): Option<seq<Bits>> {
    if outer.syntax != inner.syntax || !SameRoot(lower, outer.root, inner.root, letters) then None
    else if |outer.names| > |inner.names| then None
    else if forall i | 0 <= i < |outer.names| ::
              Fold(lower, inner.names[i], letters) == Fold(lower, outer.names[i], letters)
    then Some(inner.names[|outer.names|..]) else None
  }

  predicate Contains(lower: Lowering, outer: Location, inner: Location, letters: Case) {
    RelativeTo(lower, outer, inner, letters).Some?
  }

  predicate Same(lower: Lowering, a: Location, b: Location, letters: Case) {
    RelativeTo(lower, a, b, letters) == Some([])
  }

  /** Containment is a preorder, and locations that contain each other are the same. */
  lemma ContainmentOrders(lower: Lowering, a: Location, b: Location, c: Location, letters: Case)
    ensures Contains(lower, a, a, letters) && Same(lower, a, a, letters)
    ensures Contains(lower, a, b, letters) && Contains(lower, b, c, letters) ==> Contains(lower, a, c, letters)
    ensures Contains(lower, a, b, letters) && Contains(lower, b, a, letters) <==> Same(lower, a, b, letters)
  {
    if Contains(lower, a, b, letters) && Contains(lower, b, c, letters) {
      forall i | 0 <= i < |a.names| ensures Fold(lower, c.names[i], letters) == Fold(lower, a.names[i], letters) {
        assert Fold(lower, c.names[i], letters) == Fold(lower, b.names[i], letters);
      }
    }
    assert a.names[|a.names|..] == [];
    assert Contains(lower, a, b, letters) ==> |b.names[|a.names|..]| == |b.names| - |a.names|;
  }

  /** Where case tells names apart, what is relative to a location is what was put after it; UNC servers are
    the exception, whose case never counts. */
  lemma RelativeIsWhatFollows(lower: Lowering, outer: Location, inner: Location, rest: seq<Bits>)
    requires !outer.root.Unc?
    ensures RelativeTo(lower, outer, inner, Sensitive) == Some(rest) <==> inner == outer.(names := outer.names + rest)
  {
    if RelativeTo(lower, outer, inner, Sensitive) == Some(rest) {
      assert inner.names[..|outer.names|] == outer.names;
      assert inner.names == outer.names + rest;
    }
    if inner == outer.(names := outer.names + rest) {
      assert inner.names[|outer.names|..] == rest;
    }
  }

  /** Where it does not, names are told apart as they are in lower case. */
  lemma SameUpToCase(lower: Lowering, a: Location, b: Location)
    ensures Same(lower, a, b, Insensitive) <==>
      && a.syntax == b.syntax && |a.names| == |b.names|
      && (forall i :: 0 <= i < |a.names| ==> lower(a.names[i]) == lower(b.names[i]))
      && (if a.root.Unc? then
            b.root.Unc? && lower(a.root.server) == lower(b.root.server) && lower(a.root.share) == lower(b.root.share)
          else a.root == b.root)
  {
    if |a.names| <= |b.names| {
      assert |b.names[|a.names|..]| == |b.names| - |a.names|;
    }
  }

  /** Same locations are interchangeable on either side of containment. */
  lemma SameContainsAlike(lower: Lowering, a: Location, b: Location, c: Location, letters: Case)
    requires Same(lower, a, b, letters)
    ensures Contains(lower, a, c, letters) <==> Contains(lower, b, c, letters)
    ensures Contains(lower, c, a, letters) <==> Contains(lower, c, b, letters)
  {
    ContainmentOrders(lower, a, b, c, letters);
    ContainmentOrders(lower, b, a, c, letters);
    ContainmentOrders(lower, c, a, b, letters);
    ContainmentOrders(lower, c, b, a, letters);
  }

  // ---------- keys ----------

  function RootKey(lower: Lowering, root: Root, letters: Case): Bits {
    match root
    case UnixRoot => [SLASH]
    case Drive(letter) => [letter, COLON, BACKSLASH]
    case Unc(server, share) => [BACKSLASH, BACKSLASH] + lower(server) + [BACKSLASH] + Fold(lower, share, letters)
  }

  /** `key`: the root, and the folded names with a zero byte between each two. */
  function Key(lower: Lowering, l: Location, letters: Case): Bits {
    RootKey(lower, l.root, letters) + Joined(Folded(lower, l.names, letters), 0)
  }

  method WriteKey(lower: Lowering, l: Location, letters: Case) returns (key: Bits)
    ensures key == Key(lower, l, letters)
  {
    key := RootKey(lower, l.root, letters);
    var joined := Join(Folded(lower, l.names, letters), 0);
    key := key + joined;
  }

  /** Lower-casing keeps a name a name: it makes nothing empty and adds no zero byte and no backslash. */
  ghost predicate KeepsNames(lower: Lowering) {
    forall name: Bits :: name != [] && 0 !in name ==>
      lower(name) != [] && 0 !in lower(name) && (BACKSLASH !in name ==> BACKSLASH !in lower(name))
  }

  predicate Pieces(names: seq<Bits>, separator: Byte) {
    forall i :: 0 <= i < |names| ==> names[i] != [] && separator !in names[i]
  }

  function Until(bits: Bits, stop: Byte): (head: Bits)
    ensures |head| <= |bits| && stop !in head
  {
    if bits == [] || bits[0] == stop then [] else [bits[0]] + Until(bits[1..], stop)
  }

  lemma {:induction false} UntilStops(head: Bits, stop: Byte, rest: Bits)
    requires stop !in head
    ensures Until(head, stop) == head && Until(head + [stop] + rest, stop) == head
  {
    if head == [] {
      assert head + [stop] + rest == [stop] + rest;
    } else {
      UntilStops(head[1..], stop, rest);
      assert (head + [stop] + rest)[1..] == head[1..] + [stop] + rest;
    }
  }

  lemma FirstPiece(names: seq<Bits>, separator: Byte)
    requires Pieces(names, separator) && names != []
    ensures Until(Joined(names, separator), separator) == names[0]
    ensures |names| == 1 <==> |Joined(names, separator)| == |names[0]|
    ensures |names| > 1 ==> Joined(names, separator)[|names[0]| + 1..] == Joined(names[1..], separator)
  {
    UntilStops(names[0], separator, if |names| == 1 then [] else Joined(names[1..], separator));
  }

  /** Different lists of pieces are joined to different bytes. */
  lemma {:induction false} JoinedIsInjective(a: seq<Bits>, b: seq<Bits>, separator: Byte)
    requires Pieces(a, separator) && Pieces(b, separator) && Joined(a, separator) == Joined(b, separator)
    ensures a == b
  {
    if a != [] { FirstPiece(a, separator); }
    if b != [] { FirstPiece(b, separator); }
    if a != [] && b != [] && |a| > 1 {
      JoinedIsInjective(a[1..], b[1..], separator);
      assert a == [a[0]] + a[1..] && b == [b[0]] + b[1..];
    }
  }

  lemma FoldedArePieces(lower: Lowering, l: Location, letters: Case)
    requires KeepsNames(lower) && Valid(l)
    ensures Pieces(Folded(lower, l.names, letters), 0)
  {
    forall i | 0 <= i < |l.names|
      ensures Fold(lower, l.names[i], letters) != [] && 0 !in Fold(lower, l.names[i], letters)
    {
      assert IsName(l.names[i], l.syntax);
    }
  }

  lemma SameNames(lower: Lowering, a: Location, b: Location, letters: Case)
    requires a.syntax == b.syntax && SameRoot(lower, a.root, b.root, letters)
    ensures Folded(lower, a.names, letters) == Folded(lower, b.names, letters) <==> Same(lower, a, b, letters)
  {
    var fa, fb := Folded(lower, a.names, letters), Folded(lower, b.names, letters);
    assert |fa| == |a.names| && |fb| == |b.names|;
    forall i | 0 <= i < |a.names| && i < |b.names|
      ensures fa[i] == Fold(lower, a.names[i], letters) && fb[i] == Fold(lower, b.names[i], letters)
    {}
    if fa == fb {
      forall i | 0 <= i < |a.names| ensures Fold(lower, b.names[i], letters) == Fold(lower, a.names[i], letters) {
        assert fa[i] == fb[i];
      }
      assert b.names[|a.names|..] == [];
    }
    if Same(lower, a, b, letters) {
      assert |b.names[|a.names|..]| == |b.names| - |a.names|;
      assert fa == fb;
    }
  }

  lemma JoinedTails(head: Bits, a: Bits, b: Bits)
    requires head + a == head + b
    ensures a == b
  {
    assert (head + a)[|head|..] == a && (head + b)[|head|..] == b;
  }

  /** The same location has one key, whatever its root. */
  lemma SameHasOneKey(lower: Lowering, a: Location, b: Location, letters: Case)
    requires Same(lower, a, b, letters)
    ensures Key(lower, a, letters) == Key(lower, b, letters)
  {
    SameNames(lower, a, b, letters);
  }

  lemma OneKeyOneRoot(lower: Lowering, a: Location, b: Location, letters: Case)
    requires Valid(a) && Valid(b) && !a.root.Unc? && !b.root.Unc? && Key(lower, a, letters) == Key(lower, b, letters)
    ensures a.root == b.root && a.syntax == b.syntax
  {
    assert Key(lower, a, letters)[0] == RootKey(lower, a.root, letters)[0];
    assert Key(lower, b, letters)[0] == RootKey(lower, b.root, letters)[0];
  }

  /** Under Unix and drive roots a key stands for exactly one location, up to case. */
  lemma KeyMeansSame(lower: Lowering, a: Location, b: Location, letters: Case)
    requires KeepsNames(lower) && Valid(a) && Valid(b) && !a.root.Unc? && !b.root.Unc?
    ensures Key(lower, a, letters) == Key(lower, b, letters) <==> Same(lower, a, b, letters)
  {
    if Same(lower, a, b, letters) {
      SameHasOneKey(lower, a, b, letters);
    }
    if Key(lower, a, letters) == Key(lower, b, letters) {
      OneKeyOneRoot(lower, a, b, letters);
      FoldedArePieces(lower, a, letters);
      FoldedArePieces(lower, b, letters);
      JoinedTails(RootKey(lower, a.root, letters), Joined(Folded(lower, a.names, letters), 0), Joined(Folded(lower, b.names, letters), 0));
      JoinedIsInjective(Folded(lower, a.names, letters), Folded(lower, b.names, letters), 0);
      SameNames(lower, a, b, letters);
    }
  }

  /** A UNC key begins as no other key does, so it can only be confused with another UNC key. */
  lemma UncKeysAreApart(lower: Lowering, a: Location, b: Location, letters: Case)
    requires Valid(a) && Valid(b) && a.root.Unc? && !b.root.Unc?
    ensures Key(lower, a, letters) != Key(lower, b, letters)
  {
    assert Key(lower, a, letters)[0] == BACKSLASH;
    assert Key(lower, b, letters)[0] == RootKey(lower, b.root, letters)[0];
  }

  lemma UncKeyParts(lower: Lowering, l: Location, letters: Case)
    requires l.root.Unc?
    ensures Key(lower, l, letters) ==
      [BACKSLASH, BACKSLASH] +
      (lower(l.root.server) + [BACKSLASH] +
       (Fold(lower, l.root.share, letters) + Joined(Folded(lower, l.names, letters), 0)))
  {}

  lemma UncServerIsPlain(lower: Lowering, l: Location)
    requires KeepsNames(lower) && Valid(l) && l.root.Unc?
    ensures BACKSLASH !in lower(l.root.server)
  {
    assert IsName(l.root.server, Windows);
  }

  lemma SplitsAlike(a: Bits, restA: Bits, b: Bits, restB: Bits, stop: Byte)
    requires stop !in a && stop !in b && a + [stop] + restA == b + [stop] + restB
    ensures a == b && restA == restB
  {
    UntilStops(a, stop, restA);
    UntilStops(b, stop, restB);
    JoinedTails(a + [stop], restA, restB);
  }

  /** Nothing is written between the share and the first name, so two UNC locations with one key are the
    same exactly when their folded shares have the same length. */
  lemma UncKeyMeansSameExactlyWhen(lower: Lowering, a: Location, b: Location, letters: Case)
    requires KeepsNames(lower) && Valid(a) && Valid(b) && a.root.Unc? && b.root.Unc?
    requires Key(lower, a, letters) == Key(lower, b, letters)
    ensures Same(lower, a, b, letters) <==>
      |Fold(lower, a.root.share, letters)| == |Fold(lower, b.root.share, letters)|
  {
    var shareA, shareB := Fold(lower, a.root.share, letters), Fold(lower, b.root.share, letters);
    var restA, restB := Joined(Folded(lower, a.names, letters), 0), Joined(Folded(lower, b.names, letters), 0);
    UncKeyParts(lower, a, letters);
    UncKeyParts(lower, b, letters);
    UncServerIsPlain(lower, a);
    UncServerIsPlain(lower, b);
    JoinedTails([BACKSLASH, BACKSLASH], lower(a.root.server) + [BACKSLASH] + (shareA + restA),
                lower(b.root.server) + [BACKSLASH] + (shareB + restB));
    SplitsAlike(lower(a.root.server), shareA + restA, lower(b.root.server), shareB + restB, BACKSLASH);
    if |shareA| == |shareB| {
      assert shareA == (shareA + restA)[..|shareA|] && shareB == (shareB + restB)[..|shareB|];
      JoinedTails(shareA, restA, restB);
      FoldedArePieces(lower, a, letters);
      FoldedArePieces(lower, b, letters);
      JoinedIsInjective(Folded(lower, a.names, letters), Folded(lower, b.names, letters), 0);
      SameNames(lower, a, b, letters);
    }
  }

  /** `\\s\a\b` and `\\s\ab` share a key. */
  lemma UncKeysCollide(lower: Lowering) returns (a: Location, b: Location)
    ensures Valid(a) && Valid(b) && Key(lower, a, Sensitive) == Key(lower, b, Sensitive)
    ensures !Same(lower, a, b, Sensitive)
  {
    a := Location(Windows, Unc([115], [97]), [[98]]);
    b := Location(Windows, Unc([115], [97, 98]), []);
    assert Folded(lower, a.names, Sensitive) == [[98]];
    assert Folded(lower, b.names, Sensitive) == [];
    assert RootKey(lower, a.root, Sensitive) + [98] == RootKey(lower, b.root, Sensitive) + [];
  }
}
