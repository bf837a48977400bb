/** The words of a shell command as a grammar, and that the parser and the recogniser follow it. */
module ShellGrammar {
  import opened Lists
  import opened ShellQuote

  // ---------------------------------------------------------------------
  // One word
  // ---------------------------------------------------------------------

  /** Inside double quotes: a character, or one taken literally after a backslash. */
  datatype Part = Literal(c: char) | Taken(c: char)

  datatype Piece = Bare(c: char) | Escaped(c: char) | SingleQuoted(text: string) | DoubleQuoted(parts: seq<Part>)

  predicate PartOk(part: Part) { part.Literal? ==> part.c != '"' && part.c != '\\' }

  predicate PieceOk(piece: Piece) {
    match piece
    case Bare(c) => !IsWhitespace(c) && c != '\'' && c != '"' && c != '\\'
    case Escaped(c) => true
    case SingleQuoted(text) => '\'' !in text
    case DoubleQuoted(parts) => forall i :: 0 <= i < |parts| ==> PartOk(parts[i])
  }

  predicate WordOk(pieces: seq<Piece>) { forall i :: 0 <= i < |pieces| ==> PieceOk(pieces[i]) }

  function PartsSpelled(parts: seq<Part>): string {
    if parts == [] then ""
    else (if parts[0].Literal? then [parts[0].c] else ['\\', parts[0].c]) + PartsSpelled(parts[1..])
  }

  function PartsMeant(parts: seq<Part>): string {
    if parts == [] then "" else [parts[0].c] + PartsMeant(parts[1..])
  }

  /** How a piece is written, and the characters it stands for. */
  function Spelled(piece: Piece): string {
    match piece
    case Bare(c) => [c]
    case Escaped(c) => ['\\', c]
    case SingleQuoted(text) => "'" + text + "'"
    case DoubleQuoted(parts) => "\"" + PartsSpelled(parts) + "\""
  }

  function Meant(piece: Piece): string {
    match piece
    case Bare(c) => [c]
    case Escaped(c) => [c]
    case SingleQuoted(text) => text
    case DoubleQuoted(parts) => PartsMeant(parts)
  }

  function WordSpelled(pieces: seq<Piece>): string {
    if pieces == [] then "" else Spelled(pieces[0]) + WordSpelled(pieces[1..])
  }

  function WordMeant(pieces: seq<Piece>): string {
    if pieces == [] then "" else Meant(pieces[0]) + WordMeant(pieces[1..])
  }

  /** A word that spells a prefix of `s`, up to its end or to whitespace, and stands for `text`. */
  ghost predicate Spells(s: string, pieces: seq<Piece>, tail: string, text: string) {
    WordOk(pieces) && s == WordSpelled(pieces) + tail && SetOff(tail) && text == WordMeant(pieces)
  }

  ghost predicate FirstWord(s: string, text: string) {
    text != "" && exists pieces, tail :: Spells(s, pieces, tail, text)
  }

  // ----- every word of the grammar parses to what it means -----

  lemma {:induction false} SingleParses(text: string, rest: string, out: string)
    requires '\'' !in text
    ensures Single(text + "'" + rest, out) == Unquoted(rest, out + text)
  {
    hide Unquoted;
    var s := text + "'" + rest;
    if text == "" {
      assert s[1..] == rest && out + text == out;
    } else {
      assert s[1..] == text[1..] + "'" + rest;
      SingleParses(text[1..], rest, out + [text[0]]);
      assert (out + [text[0]]) + text[1..] == out + text;
    }
  }

  lemma {:induction false} DoubleParses(parts: seq<Part>, rest: string, out: string)
    requires forall i :: 0 <= i < |parts| ==> PartOk(parts[i])
    ensures Double(PartsSpelled(parts) + "\"" + rest, out) == Unquoted(rest, out + PartsMeant(parts))
  {
    hide Unquoted;
    var s := PartsSpelled(parts) + "\"" + rest;
    if parts == [] {
      assert s[1..] == rest && out + "" == out;
    } else {
      var c := parts[0].c;
      var more := PartsSpelled(parts[1..]) + "\"" + rest;
      assert PartOk(parts[0]);
      DoubleParses(parts[1..], rest, out + [c]);
      assert (out + [c]) + PartsMeant(parts[1..]) == out + PartsMeant(parts);
      if parts[0].Literal? {
        assert s == [c] + more;
        assert s[1..] == more;
      } else {
        assert s == ['\\', c] + more;
        assert s[2..] == more;
      }
    }
  }

  /** How each kind of piece is entered. */
  lemma Enters(s: string, out: string)
    requires s != ""
    ensures s[0] == '\'' ==> Unquoted(s, out) == Single(s[1..], out)
    ensures s[0] == '"' ==> Unquoted(s, out) == Double(s[1..], out)
    ensures s[0] == '\\' && |s| >= 2 ==> Unquoted(s, out) == Unquoted(s[2..], out + [s[1]])
    ensures PieceOk(Bare(s[0])) ==> Unquoted(s, out) == Unquoted(s[1..], out + [s[0]])
  {
    hide IsWhitespace, Single, Double;
    MarksAreOrdinary();
  }

  lemma PieceParses(piece: Piece, rest: string, out: string)
    requires PieceOk(piece)
    ensures Unquoted(Spelled(piece) + rest, out) == Unquoted(rest, out + Meant(piece))
  {
    hide Unquoted, Single, Double, IsWhitespace, PartsSpelled, PartsMeant;
    match piece {
      case Bare(c) => {
        Enters([c] + rest, out);
        assert ([c] + rest)[1..] == rest;
      }
      case Escaped(c) => {
        var s := ['\\', c] + rest;
        Enters(s, out);
        assert s[1] == c && s[2..] == rest;
      }
      case SingleQuoted(text) => { SingleQuotedParses(text, rest, out); }
      case DoubleQuoted(parts) => { DoubleQuotedParses(parts, rest, out); }
    }
  }

  lemma SingleQuotedParses(text: string, rest: string, out: string)
    requires '\'' !in text
    ensures Unquoted("'" + text + "'" + rest, out) == Unquoted(rest, out + text)
  {
    hide Unquoted, Single, Double, IsWhitespace;
    var s := "'" + text + "'" + rest;
    Enters(s, out);
    assert s[1..] == text + "'" + rest;
    SingleParses(text, rest, out);
  }

  lemma DoubleQuotedParses(parts: seq<Part>, rest: string, out: string)
    requires forall i :: 0 <= i < |parts| ==> PartOk(parts[i])
    ensures Unquoted("\"" + PartsSpelled(parts) + "\"" + rest, out) == Unquoted(rest, out + PartsMeant(parts))
  {
    hide Unquoted, Single, Double, IsWhitespace, PartsSpelled, PartsMeant;
    var s := "\"" + PartsSpelled(parts) + "\"" + rest;
    Enters(s, out);
    assert s[1..] == PartsSpelled(parts) + "\"" + rest;
    DoubleParses(parts, rest, out);
  }

  lemma MarksAreOrdinary()
    ensures !IsWhitespace('\'') && !IsWhitespace('"') && !IsWhitespace('\\')
  {
  }

  lemma {:induction false} WordParses(pieces: seq<Piece>, tail: string, out: string)
    requires WordOk(pieces) && SetOff(tail)
    ensures Unquoted(WordSpelled(pieces) + tail, out) == Finish(out + WordMeant(pieces))
  {
    hide PieceOk, Spelled, Meant;
    if pieces == [] {
      assert WordSpelled(pieces) + tail == tail && out + "" == out;
    } else {
      var rest := WordSpelled(pieces[1..]) + tail;
      assert WordSpelled(pieces) + tail == Spelled(pieces[0]) + rest;
      PieceParses(pieces[0], rest, out);
      hide Unquoted;
      WordParses(pieces[1..], tail, out + Meant(pieces[0]));
      assert (out + Meant(pieces[0])) + WordMeant(pieces[1..]) == out + WordMeant(pieces);
    }
  }

  // ----- whatever parses is such a word -----

  lemma {:induction false} SingleRead(s: string, out: string) returns (text: string, rest: string)
    requires Single(s, out).Some?
    ensures '\'' !in text && s == text + "'" + rest && Single(s, out) == Unquoted(rest, out + text)
  {
    hide Unquoted;
    if s[0] == '\'' {
      text, rest := "", s[1..];
      assert out + text == out;
    } else {
      var more;
      more, rest := SingleRead(s[1..], out + [s[0]]);
      text := [s[0]] + more;
      assert (out + [s[0]]) + more == out + text;
    }
  }

  lemma {:induction false} DoubleRead(s: string, out: string) returns (parts: seq<Part>, rest: string)
    requires Double(s, out).Some?
    ensures forall i :: 0 <= i < |parts| ==> PartOk(parts[i])
    ensures s == PartsSpelled(parts) + "\"" + rest && Double(s, out) == Unquoted(rest, out + PartsMeant(parts))
    decreases |s|
  {
    hide Unquoted;
    if s[0] == '"' {
      parts, rest := [], s[1..];
      assert out + PartsMeant([]) == out;
    } else {
      var part := if s[0] == '\\' then Taken(s[1]) else Literal(s[0]);
      var more;
      more, rest := DoubleRead(if s[0] == '\\' then s[2..] else s[1..], out + [part.c]);
      parts := [part] + more;
      assert parts[1..] == more;
      assert (out + [part.c]) + PartsMeant(more) == out + PartsMeant(parts);
    }
  }

  lemma PieceRead(s: string, out: string) returns (piece: Piece, rest: string)
    requires Unquoted(s, out).Some? && s != "" && !IsWhitespace(s[0])
    ensures PieceOk(piece) && s == Spelled(piece) + rest && |rest| < |s|
    ensures Unquoted(s, out) == Unquoted(rest, out + Meant(piece))
  {
    hide IsWhitespace, Single, Double;
    if s[0] == '\'' {
      var text;
      text, rest := SingleRead(s[1..], out);
      piece := SingleQuoted(text);
    } else if s[0] == '"' {
      var parts;
      parts, rest := DoubleRead(s[1..], out);
      piece := DoubleQuoted(parts);
    } else if s[0] == '\\' {
      piece, rest := Escaped(s[1]), s[2..];
    } else {
      piece, rest := Bare(s[0]), s[1..];
    }
  }

  lemma {:induction false} WordRead(s: string, out: string) returns (pieces: seq<Piece>, tail: string)
    requires Unquoted(s, out).Some?
    ensures WordOk(pieces) && s == WordSpelled(pieces) + tail && SetOff(tail)
    ensures Unquoted(s, out) == Finish(out + WordMeant(pieces))
    decreases |s|
  {
    hide PieceOk, Spelled, Meant, IsWhitespace;
    if s == "" || IsWhitespace(s[0]) {
      pieces, tail := [], s;
      assert out + WordMeant([]) == out;
    } else {
      var piece, rest := PieceRead(s, out);
      hide Unquoted;
      var more;
      more, tail := WordRead(rest, out + Meant(piece));
      pieces := [piece] + more;
      assert pieces[1..] == more;
      assert (out + Meant(piece)) + WordMeant(more) == out + WordMeant(pieces);
    }
  }

  /** The parser finds argv[0] exactly when the text starts with a word of the grammar, and what it means. */
  lemma Argv0Iff(s: string, text: string)
    ensures Unquoted(s, "") == Some(text) <==> FirstWord(s, text)
  {
    hide Unquoted, WordOk, WordSpelled, WordMeant, IsWhitespace;
    if Unquoted(s, "") == Some(text) {
      var pieces, tail := WordRead(s, "");
      assert "" + WordMeant(pieces) == WordMeant(pieces);
      assert Spells(s, pieces, tail, text);
    }
    if FirstWord(s, text) {
      var pieces, tail :| Spells(s, pieces, tail, text);
      WordParses(pieces, tail, "");
      assert "" + text == text;
    }
  }

  // ---------------------------------------------------------------------
  // The command after an `env` prefix
  // ---------------------------------------------------------------------

  ghost predicate AllBlank(s: string) { forall c :: c in s ==> IsWhitespace(c) }

  ghost predicate NoBlank(s: string) { forall c :: c in s ==> !IsWhitespace(c) }

  /** `s` is a run of other characters, then whitespace, then `rest`, which starts with neither. */
  ghost predicate RawWord(s: string, word: string, gap: string, rest: string) {
    && s == word + gap + rest && NoBlank(word) && AllBlank(gap)
    && (rest != "" ==> gap != "" && !IsWhitespace(rest[0]))
  }

  lemma {:induction false} Trimmed(s: string) returns (gap: string)
    ensures s == gap + TrimStart(s) && AllBlank(gap)
  {
    if s != "" && IsWhitespace(s[0]) {
      var more := Trimmed(s[1..]);
      gap := [s[0]] + more;
    } else {
      gap := "";
    }
  }

  lemma {:induction false} TrimBlank(gap: string, rest: string)
    requires AllBlank(gap) && (rest != "" ==> !IsWhitespace(rest[0]))
    ensures TrimStart(gap + rest) == rest
  {
    if gap == "" {
      assert gap + rest == rest;
    } else {
      assert gap[0] in gap;
      assert (gap + rest)[1..] == gap[1..] + rest;
      TrimBlank(gap[1..], rest);
    }
  }

  lemma SplitIff(s: string, word: string, rest: string)
    ensures SplitWord(s) == (word, rest) <==> exists gap :: RawWord(s, word, gap, rest)
  {
    hide TrimStart, IsWhitespace;
    var end := WordLength(s);
    if SplitWord(s) == (word, rest) {
      var gap := Trimmed(s[end..]);
      assert s == s[..end] + s[end..];
      assert NoBlank(word) by { WordHasNoBlank(s, end); }
      if rest != "" { SplitGap(s, end, gap, rest); }
      assert RawWord(s, word, gap, rest);
    }
    if gap :| RawWord(s, word, gap, rest) {
      RawWordEnds(s, word, gap, rest);
      TrimBlank(gap, rest);
      assert s[|word|..] == gap + rest && s[..|word|] == word;
    }
  }

  lemma WordHasNoBlank(s: string, end: nat)
    requires end == WordLength(s)
    ensures NoBlank(s[..end])
  {
  }

  lemma SplitGap(s: string, end: nat, gap: string, rest: string)
    requires end == WordLength(s) && s[end..] == gap + rest && rest != "" && !IsWhitespace(rest[0])
    ensures gap != ""
  {
    assert s[end..][0] == (gap + rest)[0];
  }

  lemma RawWordEnds(s: string, word: string, gap: string, rest: string)
    requires RawWord(s, word, gap, rest)
    ensures WordLength(s) == |word|
  {
    hide IsWhitespace;
    var n := WordLength(s);
    assert forall i :: 0 <= i < |word| ==> s[i] == word[i] && word[i] in word;
    if |word| < |s| {
      assert gap != "";
      assert s[|word|] == gap[0] && gap[0] in gap;
    }
  }

  /** A flag or an assignment; a quoted word is neither. */
  predicate IsSetting(word: string) {
    word != "" && word[0] != '\'' && word[0] != '"' && ('=' in word || word[0] == '-')
  }

  predicate TakesName(word: string) { word == "-u" || word == "--unset" }

  /** One flag or assignment of `env` is passed over, with its operand if it takes one. */
  ghost predicate PassesOver(s: string, rest: string) {
    exists word, gap, after :: RawWord(s, word, gap, after) && IsSetting(word)
      && if TakesName(word) then exists name, space :: RawWord(after, name, space, rest) else rest == after
  }

  /** Flags and assignments, then a word that is neither. */
  ghost predicate PassesTo(texts: seq<string>, s: string, text: string) {
    && texts != [] && texts[0] == s && texts[|texts| - 1] == text
    && (forall i :: 0 <= i < |texts| - 1 ==> PassesOver(texts[i], texts[i + 1]))
    && exists word, gap, rest :: RawWord(text, word, gap, rest) && word != "" && !IsSetting(word)
  }

  lemma PassesIff(s: string, rest: string)
    ensures PassesOver(s, rest) <==>
      var (word, after) := SplitWord(s);
      IsSetting(word) && rest == if TakesName(word) then SplitWord(after).1 else after
  {
    hide SplitWord, IsSetting, RawWord;
    var (w, a) := SplitWord(s);
    SplitIff(s, w, a);
    var (n, r) := SplitWord(a);
    SplitIff(a, n, r);
    if PassesOver(s, rest) {
      var word, gap, after :| RawWord(s, word, gap, after) && IsSetting(word)
        && if TakesName(word) then exists name, space :: RawWord(after, name, space, rest) else rest == after;
      SplitIff(s, word, after);
      if TakesName(word) {
        var name, space :| RawWord(after, name, space, rest);
        SplitIff(after, name, rest);
      }
    }
    if IsSetting(w) && rest == (if TakesName(w) then r else a) {
      var gap :| RawWord(s, w, gap, a);
      if TakesName(w) {
        var space :| RawWord(a, n, space, r);
        assert RawWord(a, n, space, rest);
      }
      assert PassesOver(s, rest);
    }
  }

  lemma StopsIff(s: string)
    ensures (exists word, gap, rest :: RawWord(s, word, gap, rest) && word != "" && !IsSetting(word)) <==>
      SplitWord(s).0 != "" && !IsSetting(SplitWord(s).0)
  {
    hide SplitWord, IsSetting, RawWord;
    var (w, a) := SplitWord(s);
    SplitIff(s, w, a);
    if word, gap, rest :| RawWord(s, word, gap, rest) && word != "" && !IsSetting(word) {
      SplitIff(s, word, rest);
    }
  }

  lemma AfterEnvTurn(s: string)
    ensures var (word, after) := SplitWord(s);
      AfterEnv(s) ==
      if word == "" then None
      else if !IsSetting(word) then Some(s)
      else AfterEnv(if TakesName(word) then SplitWord(after).1 else after)
    ensures IsSetting(SplitWord(s).0) ==>
      |if TakesName(SplitWord(s).0) then SplitWord(SplitWord(s).1).1 else SplitWord(s).1| < |s|
  {
  }

  lemma {:induction false} AfterEnvPasses(s: string) returns (texts: seq<string>)
    requires AfterEnv(s).Some?
    ensures PassesTo(texts, s, AfterEnv(s).value)
    decreases |s|
  {
    hide SplitWord, AfterEnv, IsSetting, PassesOver, RawWord;
    var (word, after) := SplitWord(s);
    AfterEnvTurn(s);
    if !IsSetting(word) {
      texts := [s];
      StopsIff(s);
    } else {
      var rest := if TakesName(word) then SplitWord(after).1 else after;
      PassesIff(s, rest);
      var more := AfterEnvPasses(rest);
      texts := [s] + more;
      forall i | 0 <= i < |texts| - 1 ensures PassesOver(texts[i], texts[i + 1]) {
        if i > 0 { assert texts[i] == more[i - 1] && texts[i + 1] == more[i]; }
      }
    }
  }

  lemma {:induction false} PassedParses(texts: seq<string>, s: string, text: string)
    requires PassesTo(texts, s, text)
    ensures AfterEnv(s) == Some(text)
    decreases |texts|
  {
    hide SplitWord, AfterEnv, IsSetting, PassesOver, RawWord;
    AfterEnvTurn(s);
    if |texts| == 1 {
      StopsIff(s);
      EmptyIsNoSetting();
    } else {
      assert PassesOver(texts[0], texts[1]);
      PassesIff(s, texts[1]);
      EmptyIsNoSetting();
      forall i | 0 <= i < |texts[1..]| - 1 ensures PassesOver(texts[1..][i], texts[1..][i + 1]) {
        assert PassesOver(texts[i + 1], texts[i + 2]);
      }
      PassedParses(texts[1..], texts[1], text);
    }
  }

  lemma EmptyIsNoSetting()
    ensures !IsSetting("")
  {
  }

  /** What a command line runs: after an `env` prefix if it has one, leading whitespace aside. */
  ghost predicate Runs(cmd: string, text: string) {
    exists gap, line :: cmd == gap + line && AllBlank(gap) && (line != "" ==> !IsWhitespace(line[0]))
      && if exists space, rest :: RawWord(line, "env", space, rest)
         then exists space, rest, texts :: RawWord(line, "env", space, rest) && PassesTo(texts, rest, text)
         else text == line
  }

  lemma RunsIff(cmd: string, text: string)
    ensures CommandText(cmd) == Some(text) <==> Runs(cmd, text)
  {
    hide TrimStart, SplitWord, AfterEnv, IsWhitespace, PassesTo, RawWord;
    var line := TrimStart(cmd);
    var (first, after) := SplitWord(line);
    SplitIff(line, first, after);
    var gap := Trimmed(cmd);
    if CommandText(cmd) == Some(text) {
      if first == "env" {
        var space :| RawWord(line, "env", space, after);
        var texts := AfterEnvPasses(after);
        assert RawWord(line, "env", space, after) && PassesTo(texts, after, text);
      } else {
        if space, rest :| RawWord(line, "env", space, rest) { SplitIff(line, "env", rest); }
      }
      assert cmd == gap + line;
    }
    if Runs(cmd, text) {
      var g, l :| cmd == g + l && AllBlank(g) && (l != "" ==> !IsWhitespace(l[0]))
        && if exists space, rest :: RawWord(l, "env", space, rest)
           then exists space, rest, texts :: RawWord(l, "env", space, rest) && PassesTo(texts, rest, text)
           else text == l;
      TrimBlank(g, l);
      assert l == line;
      if exists space, rest :: RawWord(l, "env", space, rest) {
        var space, rest, texts :| RawWord(l, "env", space, rest) && PassesTo(texts, rest, text);
        SplitIff(line, "env", rest);
        PassedParses(texts, rest, text);
      }
    }
  }

  /** The command line runs a program whose base name is `wisphive-hook`. */
  ghost predicate RunsHook(cmd: string) {
    exists text, argv0 :: Runs(cmd, text) && FirstWord(text, argv0) && FileName(argv0) == Some("wisphive-hook")
  }

  lemma HookNameNamed(argv0: string)
    ensures NamesHook(argv0) <==> FileName(argv0) == Some("wisphive-hook")
  {
    if argv0 == HOOK_NAME {
      assert LastSlash(argv0) == 0;
      assert argv0[0..] == argv0;
    }
  }

  /** The recogniser accepts exactly the command lines that run the hook. */
  lemma RecognisedIff(cmd: string)
    ensures IsWisphiveHookCommand(cmd) <==> RunsHook(cmd)
  {
    hide CommandText, Unquoted, NamesHook, FileName, Runs, FirstWord;
    if IsWisphiveHookCommand(cmd) {
      var text := CommandText(cmd).value;
      var argv0 := Unquoted(text, "").value;
      RunsIff(cmd, text);
      Argv0Iff(text, argv0);
      HookNameNamed(argv0);
    }
    if text, argv0 :| Runs(cmd, text) && FirstWord(text, argv0) && FileName(argv0) == Some("wisphive-hook") {
      RunsIff(cmd, text);
      Argv0Iff(text, argv0);
      HookNameNamed(argv0);
    }
  }

  // ---------------------------------------------------------------------
  // Characters
  // ---------------------------------------------------------------------

  /** The 25 characters with the Unicode property White_Space. */
  lemma WhitespaceIs(c: char)
    ensures IsWhitespace(c) <==>
      c as int in {9, 10, 11, 12, 13, 32, 133, 160, 5760, 8192, 8193, 8194, 8195, 8196, 8197, 8198, 8199, 8200, 8201,
                   8202, 8232, 8233, 8239, 8287, 12288}
  {
  }

  /** The code points of the letters and digits, `/`, `.`, `_` and `-`. */
  predicate IsPlainCode(n: int) {
    n in {45, 46, 47, 48, 49, 50, 51, 52, 53, 54, 55, 56, 57, 65, 66, 67, 68, 69, 70, 71, 72, 73, 74, 75, 76, 77, 78,
          79, 80, 81, 82, 83, 84, 85, 86, 87, 88, 89, 90, 95, 97, 98, 99, 100, 101, 102, 103, 104, 105, 106, 107,
          108, 109, 110, 111, 112, 113, 114, 115, 116, 117, 118, 119, 120, 121, 122}
  }

  /** A path is written as it is exactly when it has no other characters; otherwise within quotes. */
  lemma QuotedIff(path: string)
    ensures Quote(path) == path <==> forall c :: c in path ==> IsPlainCode(c as int)
    ensures var quoted := Quote(path);
      quoted != path ==> |quoted| >= 2 && quoted[0] == '\'' && quoted[|quoted| - 1] == '\''
  {
    hide Escape;
    forall c ensures IsPlainChar(c) <==> IsPlainCode(c as int) { PlainIs(c); }
    hide IsPlainChar;
    if forall c :: c in path ==> IsPlainCode(c as int) {
      assert forall i :: 0 <= i < |path| ==> path[i] in path;
    } else {
      var c :| c in path && !IsPlainCode(c as int);
      var i :| 0 <= i < |path| && path[i] == c;
      assert !IsPlain(path);
      EscapeLonger(path);
    }
  }

  lemma {:induction false} EscapeLonger(s: string)
    ensures |Escape(s)| >= |s|
  {
    if s != "" { EscapeLonger(s[1..]); }
  }

  lemma PlainIs(c: char)
    ensures IsPlainChar(c) <==> IsPlainCode(c as int)
  {
  }
}
