/**
 How the installer writes a hook command for `sh -c`, and how it recognises its
 own commands again: quoting, argv[0] parsing, `env` prefixes and base names.
 */
module ShellQuote {
  import opened Lists

  /** The Unicode White_Space property. */
  predicate IsWhitespace(c: char) {
    var n := c as int;
    || 0x09 <= n <= 0x0D || n == 0x20 || n == 0x85 || n == 0xA0 || n == 0x1680
    || 0x2000 <= n <= 0x200A || n == 0x2028 || n == 0x2029 || n == 0x202F || n == 0x205F || n == 0x3000
  }

  predicate IsPlainChar(c: char) {
    'a' <= c <= 'z' || 'A' <= c <= 'Z' || '0' <= c <= '9' || c == '/' || c == '.' || c == '_' || c == '-'
  }

  predicate IsPlain(s: string) { forall i :: 0 <= i < |s| ==> IsPlainChar(s[i]) }

  /** Every apostrophe becomes a closing quote, an escaped apostrophe and an opening quote. */
  function Escape(s: string): string {
    if s == "" then "" else (if s[0] == '\'' then "'\\''" else [s[0]]) + Escape(s[1..])
  }

  function Quote(command: string): string {
    if IsPlain(command) then command else "'" + Escape(command) + "'"
  }

  const CODEX_ASSIGNMENT: string := "WISPHIVE_AGENT_TYPE=codex"
  const CODEX_PREFIX: string := "env" + (" " + (CODEX_ASSIGNMENT + " "))

  function CodexCommand(command: string): string { CODEX_PREFIX + Quote(command) }

  function TrimStart(s: string): (r: string)
    ensures |r| <= |s| && (r != "" ==> !IsWhitespace(r[0]))
  {
    if s != "" && IsWhitespace(s[0]) then TrimStart(s[1..]) else s
  }

  /** Length of the longest prefix without whitespace. */
  function WordLength(s: string): (n: nat)
    ensures n <= |s| && (n < |s| ==> IsWhitespace(s[n]))
    ensures forall i :: 0 <= i < n ==> !IsWhitespace(s[i])
  {
    if s == "" || IsWhitespace(s[0]) then 0 else 1 + WordLength(s[1..])
  }

  function SplitWord(s: string): (r: (string, string))
    ensures |r.0| + |r.1| <= |s|
  {
    var end := WordLength(s);
    (s[..end], TrimStart(s[end..]))
  }

  // ---------------------------------------------------------------------
  // argv[0]
  // ---------------------------------------------------------------------

  function Finish(out: string): Option<string> { if out == "" then None else Some(out) }

  /** What the parser yields from `s` outside quotes, having collected `out`. */
  function Unquoted(s: string, out: string): Option<string>
    decreases |s|, 1
  {
    if s == "" || IsWhitespace(s[0]) then Finish(out)
    else if s[0] == '\'' then Single(s[1..], out)
    else if s[0] == '"' then Double(s[1..], out)
    else if s[0] == '\\' then (if |s| < 2 then None else Unquoted(s[2..], out + [s[1]]))
    else Unquoted(s[1..], out + [s[0]])
  }

  function Single(s: string, out: string): Option<string>
    decreases |s|, 0
  {
    if s == "" then None
    else if s[0] == '\'' then Unquoted(s[1..], out)
    else Single(s[1..], out + [s[0]])
  }

  function Double(s: string, out: string): Option<string>
    decreases |s|, 0
  {
    if s == "" then None
    else if s[0] == '"' then Unquoted(s[1..], out)
    else if s[0] == '\\' then (if |s| < 2 then None else Double(s[2..], out + [s[1]]))
    else Double(s[1..], out + [s[0]])
  }

  /** The loop inside single quotes: everything up to the closing quote, literally. */
  method ParseSingle(s: string, start: nat, before: string) returns (out: string, i: nat, closed: bool)
    requires start <= |s|
    ensures start <= i <= |s| && (closed ==> i > start)
    ensures closed ==> Single(s[start..], before) == Unquoted(s[i..], out)
    ensures !closed ==> Single(s[start..], before) == None
  {
    hide Unquoted;
    out, i := before, start;
    while i < |s| && s[i] != '\''
      invariant start <= i <= |s|
      invariant Single(s[start..], before) == Single(s[i..], out)
    {
      out := out + [s[i]];
      i := i + 1;
    }
    closed := i < |s|;
    if closed {
      i := i + 1;
    }
  }

  /** The loop inside double quotes: a backslash takes the next character literally. */
  method ParseDouble(s: string, start: nat, before: string) returns (out: string, i: nat, closed: bool)
    requires start <= |s|
    ensures start <= i <= |s| && (closed ==> i > start)
    ensures closed ==> Double(s[start..], before) == Unquoted(s[i..], out)
    ensures !closed ==> Double(s[start..], before) == None
  {
    hide Unquoted;
    out, i := before, start;
    while i < |s| && s[i] != '"'
      invariant start <= i <= |s|
      invariant Double(s[start..], before) == Double(s[i..], out)
    {
      if s[i] == '\\' {
        i := i + 1;
        if i == |s| {
          return out, i, false;
        }
      }
      out := out + [s[i]];
      i := i + 1;
    }
    closed := i < |s|;
    if closed {
      i := i + 1;
    }
  }

  method ParseArgv0(s: string) returns (argv0: Option<string>)
    ensures argv0 == Unquoted(s, "")
  {
    hide IsWhitespace, Single, Double;
    var out := "";
    var i := 0;
    while i < |s| && !IsWhitespace(s[i])
      invariant 0 <= i <= |s|
      invariant Unquoted(s, "") == Unquoted(s[i..], out)
      decreases |s| - i
    {
      if s[i] == '\'' || s[i] == '"' {
        var closed;
        if s[i] == '\'' {
          out, i, closed := ParseSingle(s, i + 1, out);
        } else {
          out, i, closed := ParseDouble(s, i + 1, out);
        }
        if !closed {
          return None;
        }
      } else {
        if s[i] == '\\' {
          i := i + 1;
          if i == |s| {
            return None;
          }
        }
        out := out + [s[i]];
        i := i + 1;
      }
    }
    return Finish(out);
  }

  // ---------------------------------------------------------------------
  // The recogniser
  // ---------------------------------------------------------------------

  /** Last component of a Unix path; trailing `/` and `/.` are ignored and `..` has no name. */
  function FileName(p: string): Option<string>
    decreases |p|
  {
    var i := LastSlash(p);
    var last := p[i..];
    if last == "" || last == "." then (if i == 0 then None else FileName(p[..i - 1]))
    else if last == ".." then None
    else Some(last)
  }

  /** Just past the last slash, zero when there is none. */
  function LastSlash(p: string): (i: nat)
    ensures i <= |p| && (i > 0 ==> p[i - 1] == '/')
    ensures forall k :: i <= k < |p| ==> p[k] != '/'
  {
    if p == "" then 0 else if p[|p| - 1] == '/' then |p| else LastSlash(p[..|p| - 1])
  }

  const HOOK_NAME: string := "wisphive-hook"

  predicate NamesHook(argv0: string) {
    (match FileName(argv0) case Some(name) => name case None => argv0) == HOOK_NAME
  }

  predicate StartsWith(s: string, c: char) { s != "" && s[0] == c }

  /** What follows the flags and assignments of an `env` prefix; None when no command is left. */
  function AfterEnv(rest: string): Option<string>
    decreases |rest|
  {
    var (word, after) := SplitWord(rest);
    if word == "" then None
    else if StartsWith(word, '\'') || StartsWith(word, '"') then Some(rest)
    else if word == "-u" || word == "--unset" then AfterEnv(SplitWord(after).1)
    else if '=' in word || StartsWith(word, '-') then AfterEnv(after)
    else Some(rest)
  }

  /** The text whose first word is the command. */
  function CommandText(cmd: string): Option<string> {
    var rest := TrimStart(cmd);
    var (first, after) := SplitWord(rest);
    if first == "env" then AfterEnv(after) else Some(rest)
  }

  predicate IsWisphiveHookCommand(cmd: string) {
    match CommandText(cmd)
    case None => false
    case Some(rest) =>
      match Unquoted(rest, "")
      case None => false
      case Some(argv0) => NamesHook(argv0)
  }

  method RecogniseHookCommand(cmd: string) returns (ours: bool)
    ensures ours == IsWisphiveHookCommand(cmd)
  {
    var rest := TrimStart(cmd);
    var (first, afterEnv) := SplitWord(rest);
    if first == "env" {
      rest := afterEnv;
      while true
        invariant CommandText(cmd) == AfterEnv(rest)
        decreases |rest|
      {
        var (word, after) := SplitWord(rest);
        if word == "" {
          return false;
        }
        if StartsWith(word, '\'') || StartsWith(word, '"') {
          break;
        } else if word == "-u" || word == "--unset" {
          var (_, afterName) := SplitWord(after);
          rest := afterName;
        } else if '=' in word || StartsWith(word, '-') {
          rest := after;
        } else {
          break;
        }
      }
    }
    var argv0 := ParseArgv0(rest);
    ours := argv0.Some? && NamesHook(argv0.value);
  }

  // ---------------------------------------------------------------------
  // The round trip
  // ---------------------------------------------------------------------

  /** Nothing follows, or what follows is set off by whitespace. */
  predicate SetOff(tail: string) { tail == "" || IsWhitespace(tail[0]) }

  lemma PlainCharIsOrdinary(c: char)
    requires IsPlainChar(c)
    ensures !IsWhitespace(c) && c != '\'' && c != '"' && c != '\\' && c != '='
  {
  }

  lemma {:induction false} PlainParses(p: string, tail: string, out: string)
    requires IsPlain(p) && SetOff(tail)
    ensures Unquoted(p + tail, out) == Finish(out + p)
    decreases |p|
  {
    if p == "" {
      assert p + tail == tail && out + p == out;
    } else {
      PlainCharIsOrdinary(p[0]);
      assert (p + tail)[1..] == p[1..] + tail;
      PlainParses(p[1..], tail, out + [p[0]]);
      assert (out + [p[0]]) + p[1..] == out + p;
    }
  }

  /** Closing quote, escaped apostrophe, opening quote: one apostrophe. */
  lemma ApostropheParses(rest: string, out: string)
    ensures Single("'\\''" + rest, out) == Single(rest, out + ['\''])
  {
    var s := "'\\''" + rest;
    var afterClose := "\\''" + rest;
    var afterEscape := "'" + rest;
    assert s[1..] == afterClose && afterClose[2..] == afterEscape && afterEscape[1..] == rest;
    assert !IsWhitespace('\\') && !IsWhitespace('\'');
    calc {
      Single(s, out);
      Unquoted(afterClose, out);
      Unquoted(afterEscape, out + ['\'']);
      Single(rest, out + ['\'']);
    }
  }

  lemma {:induction false} EscapedParses(p: string, tail: string, out: string)
    ensures Single(Escape(p) + "'" + tail, out) == Unquoted(tail, out + p)
    decreases |p|
  {
    var s := Escape(p) + "'" + tail;
    if p == "" {
      assert s == "'" + tail && s[1..] == tail && out + p == out;
    } else {
      var rest := Escape(p[1..]) + "'" + tail;
      EscapedParses(p[1..], tail, out + [p[0]]);
      assert (out + [p[0]]) + p[1..] == out + p;
      if p[0] == '\'' {
        assert s == "'\\''" + rest;
        ApostropheParses(rest, out);
      } else {
        assert s == [p[0]] + rest && s[1..] == rest;
      }
    }
  }

  /** argv[0] of a quoted path is that path, alone or before further arguments. */
  lemma QuoteRoundTrip(p: string, tail: string)
    requires p != "" && SetOff(tail)
    ensures Unquoted(Quote(p) + tail, "") == Some(p)
  {
    assert "" + p == p;
    if IsPlain(p) {
      PlainParses(p, tail, "");
    } else {
      EscapedParses(p, tail, "");
      var s := Quote(p) + tail;
      assert s == "'" + (Escape(p) + "'" + tail);
      assert s[1..] == Escape(p) + "'" + tail;
      assert !IsWhitespace('\'');
      assert Unquoted(tail, p) == Finish(p);
    }
  }

  // ---------------------------------------------------------------------
  // What the recogniser accepts
  // ---------------------------------------------------------------------

  lemma NamesHookIff(p: string)
    ensures NamesHook(p) <==> FileName(p) == Some(HOOK_NAME)
  {
    if p == HOOK_NAME {
      LastSlashAt(p, 0);
      assert p[0..] == p;
    }
  }

  lemma LastSlashAt(p: string, i: nat)
    requires i <= |p| && (i > 0 ==> p[i - 1] == '/')
    requires forall k :: i <= k < |p| ==> p[k] != '/'
    ensures LastSlash(p) == i
  {
    hide LastSlash;
  }

  lemma WordEnds(s: string, word: string, rest: string)
    requires s == word + rest && SetOff(rest) && forall i :: 0 <= i < |word| ==> !IsWhitespace(word[i])
    ensures SplitWord(s) == (word, TrimStart(rest))
  {
    hide IsWhitespace, TrimStart;
    var n := WordLength(s);
    assert forall i :: 0 <= i < |word| ==> s[i] == word[i];
    assert rest != "" ==> s[|word|] == rest[0];
    assert n == |word|;
    assert s[..|word|] == word && s[|word|..] == rest;
  }

  lemma PlainHasNoWhitespace(p: string)
    requires IsPlain(p)
    ensures forall i :: 0 <= i < |p| ==> !IsWhitespace(p[i]) && p[i] != '='
  {
    forall i | 0 <= i < |p| ensures !IsWhitespace(p[i]) && p[i] != '=' { PlainCharIsOrdinary(p[i]); }
  }

  /** First word of a quoted command: the plain path itself, or something starting with a quote. */
  lemma QuotedFirstWord(p: string, tail: string)
    requires p != "" && SetOff(tail)
    ensures TrimStart(Quote(p) + tail) == Quote(p) + tail
    ensures var w := SplitWord(Quote(p) + tail);
      if IsPlain(p) then w == (p, TrimStart(tail)) else StartsWith(w.0, '\'')
  {
    var s := Quote(p) + tail;
    if IsPlain(p) {
      PlainHasNoWhitespace(p);
      assert s[0] == p[0];
      WordEnds(s, p, tail);
    } else {
      assert s[0] == '\'' && !IsWhitespace(s[0]);
      var n := WordLength(s);
      assert n > 0 && s[..n][0] == '\'';
    }
  }

  /** What the recogniser says once the command text is found to be a quoted path. */
  lemma RecognisedText(cmd: string, p: string, tail: string)
    requires p != "" && SetOff(tail) && CommandText(cmd) == Some(Quote(p) + tail)
    ensures IsWisphiveHookCommand(cmd) <==> FileName(p) == Some(HOOK_NAME)
  {
    hide CommandText, Unquoted, FileName, Quote, IsWhitespace;
    QuoteRoundTrip(p, tail);
    NamesHookIff(p);
  }

  lemma NothingAfterEnv()
    ensures SplitWord("") == ("", "") && AfterEnv("") == None
  {
  }

  /** The Claude form is recognised exactly when the path names the hook binary. */
  lemma ClaudeFormRecognised(p: string, tail: string)
    requires SetOff(tail) && (p == "env" || p == "" ==> tail == "")
    ensures IsWisphiveHookCommand(Quote(p) + tail) <==> FileName(p) == Some(HOOK_NAME)
  {
    hide Unquoted, AfterEnv, IsWhitespace, Escape, SplitWord;
    var s := Quote(p) + tail;
    NothingAfterEnv();
    if p == "" {
      assert s == "" && TrimStart(s) == "" && SplitWord(s).0 != "env";
      hide *;
      assert !IsWisphiveHookCommand("") by { EmptyNotRecognised(); }
      assert FileName("") == None by { EmptyNotRecognised(); }
    } else {
      QuotedFirstWord(p, tail);
      if p == "env" {
        assert IsPlain(p);
        assert CommandText(s) == None;
        NamesHookIff(p);
        LastSlashAt(p, 0);
        assert p[0..] == p;
      } else {
        hide FileName, TrimStart, NamesHook;
        assert SplitWord(s).0 != "env";
        RecognisedText(s, p, tail);
      }
    }
  }

  lemma EmptyNotRecognised()
    ensures !IsWisphiveHookCommand("") && FileName("") == None
  {
    NothingAfterEnv();
  }

  /** Skipping the assignment the Codex form puts first. */
  lemma CodexPrefixSkipped(rest: string)
    requires rest == TrimStart(rest)
    ensures CommandText(CODEX_PREFIX + rest) == AfterEnv(rest)
  {
    var second := CODEX_ASSIGNMENT + " " + rest;
    EnvWord(second);
    AssignmentWord(rest);
    AssignmentSkipped(second, rest);
    Associates("env", " ", CODEX_ASSIGNMENT, " ", rest);
    hide SplitWord, IsWhitespace, TrimStart, AfterEnv;
  }

  lemma Associates(a: string, b: string, c: string, d: string, rest: string)
    ensures (a + (b + (c + d))) + rest == a + (b + (c + d + rest))
  {
  }

  lemma EnvWord(second: string)
    requires StartsWith(second, 'W')
    ensures TrimStart("env" + (" " + second)) == "env" + (" " + second)
    ensures SplitWord("env" + (" " + second)) == ("env", second)
  {
    assert !IsWhitespace('e') && !IsWhitespace('n') && !IsWhitespace('v') && !IsWhitespace('W') && IsWhitespace(' ');
    WordEnds("env" + (" " + second), "env", " " + second);
    assert (" " + second)[1..] == second;
    assert TrimStart(" " + second) == second;
  }

  lemma AssignmentWord(rest: string)
    requires rest == TrimStart(rest)
    ensures SplitWord(CODEX_ASSIGNMENT + " " + rest) == (CODEX_ASSIGNMENT, rest)
  {
    var word := CODEX_ASSIGNMENT;
    assert word + " " + rest == word + (" " + rest);
    forall i | 0 <= i < |word| ensures !IsWhitespace(word[i]) {
      assert word[i] == '=' || word[i] == '_' || 'a' <= word[i] <= 'z' || 'A' <= word[i] <= 'Z';
    }
    WordEnds(word + " " + rest, word, " " + rest);
    assert (" " + rest)[1..] == rest;
  }

  lemma AssignmentSkipped(second: string, rest: string)
    requires SplitWord(second) == (CODEX_ASSIGNMENT, rest)
    ensures AfterEnv(second) == AfterEnv(rest)
  {
    hide SplitWord;
    assert CODEX_ASSIGNMENT[19] == '=';
  }

  /** A plain path with a leading dash is taken for a flag of `env`. */
  predicate LooksLikeFlag(p: string) { IsPlain(p) && StartsWith(p, '-') }

  lemma AfterEnvQuoted(p: string)
    requires p != ""
    ensures AfterEnv(Quote(p)) == if LooksLikeFlag(p) then None else Some(Quote(p))
  {
    QuotedFirstWord(p, "");
    assert Quote(p) + "" == Quote(p);
    NothingAfterEnv();
    if IsPlain(p) {
      PlainHasNoWhitespace(p);
      PlainCharIsOrdinary(p[0]);
      hide SplitWord, IsWhitespace, Escape, IsPlainChar;
      assert AfterEnv(SplitWord("").1) == None;
    } else {
      hide SplitWord, IsWhitespace, Escape, IsPlainChar;
    }
  }

  /** The Codex form is recognised exactly when the path names the hook binary and does not look like a flag. */
  lemma CodexFormRecognised(p: string)
    ensures IsWisphiveHookCommand(CodexCommand(p)) <==> FileName(p) == Some(HOOK_NAME) && !LooksLikeFlag(p)
  {
    if p == "" {
      CodexPrefixSkipped("");
      NothingAfterEnv();
      EmptyNotRecognised();
    } else {
      QuotedFirstWord(p, "");
      assert Quote(p) + "" == Quote(p);
      CodexPrefixSkipped(Quote(p));
      AfterEnvQuoted(p);
      if !LooksLikeFlag(p) {
        RecognisedText(CodexCommand(p), p, "");
      }
    }
  }

  /** A hook binary below a directory whose name starts with a dash. */
  lemma DashedPathNotRecognised()
    ensures FileName("-d/wisphive-hook") == Some(HOOK_NAME)
    ensures !IsWisphiveHookCommand(CodexCommand("-d/wisphive-hook"))
  {
    var p := "-d/wisphive-hook";
    LastSlashAt(p, 3);
    assert p[3..] == HOOK_NAME;
    assert LooksLikeFlag(p);
    CodexFormRecognised(p);
  }
}
