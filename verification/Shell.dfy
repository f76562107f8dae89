/** Shell quoting: `_sh_quote` and the command line of `spawn_supervised` in `api/docker_client.py`, read back
    by the token rules of the POSIX shell (POSIX.1-2017 XCU, sections 2.2.1, 2.2.2, 2.2 and 2.3). */
module Shell {
  import opened Wrappers

  // ----- the printer -----

  const QUOTE: char := '\''

  /** Each single quote becomes: close the quotes, an escaped quote, open them again. */
  function Escaped(s: string): string {
    if s == "" then "" else (if s[0] == QUOTE then "'\\''" else [s[0]]) + Escaped(s[1..])
  }

  function ShQuote(s: string): string {
    "'" + Escaped(s) + "'"
  }

  /** The quoted words, separated by single spaces. */
  function Joined(words: seq<string>): string {
    if words == [] then ""
    else if |words| == 1 then ShQuote(words[0])
    else ShQuote(words[0]) + " " + Joined(words[1..])
  }

  /** The line that runs the user's command in a background subshell. */
  function SpawnLine(argv: seq<string>, logPath: string): string {
    "( exec " + Joined(argv) + " > " + ShQuote(logPath) + " 2>&1 ) &\n"
  }

  function ExportLine(name: string, value: string): string {
    "export " + name + "=" + ShQuote(value) + "\n"
  }

  // ----- the reader -----

  /** A word carries its text after quote removal, and whether any of it was quoted: an unquoted word may still
      be a reserved word, an alias or an assignment, a quoted one is data. */
  datatype Token = Word(text: string, quoted: bool) | IoNumber(digits: string) | Operator(text: string) | Newline

  /** A word being read. */
  datatype Pending = Pending(text: string, quoted: bool)

  predicate Blank(c: char) {
    c == ' ' || c == '\t'
  }

  predicate OperatorStart(c: char) {
    c in {'(', ')', '&', ';', '|', '<', '>'}
  }

  /** Unquoted characters that start an expansion, double quotes, a comment, a pattern, a brace group or a
      pipeline negation: what the shell then does is not part of this model. */
  predicate Unmodelled(c: char) {
    c in {'$', '`', '"', '#', '*', '?', '[', '~', '{', '}', '!'}
  }

  /** Characters that stand for themselves, unquoted. */
  predicate Plain(c: char) {
    !Blank(c) && !OperatorStart(c) && !Unmodelled(c) && c != QUOTE && c != '\\' && c != '\n' && c != '\0'
  }

  predicate AllPlain(s: string) {
    forall i :: 0 <= i < |s| ==> Plain(s[i])
  }

  predicate Digits(s: string) {
    s != "" && forall i :: 0 <= i < |s| ==> '0' <= s[i] <= '9'
  }

  /** Two characters that make one operator. */
  predicate PairOperator(a: char, b: char) {
    || (a == b && a in {'&', '|', ';', '<', '>'})
    || (a == '<' && b in {'&', '>'})
    || (a == '>' && b in {'&', '|'})
  }

  /** The length of the longest operator at the front. */
  function OperatorLength(s: string): (n: nat)
    requires s != ""
    ensures 1 <= n <= |s|
  {
    if |s| >= 3 && s[0] == '<' && s[1] == '<' && s[2] == '-' then 3
    else if |s| >= 2 && PairOperator(s[0], s[1]) then 2
    else 1
  }

  function Extended(w: Option<Pending>, text: string, quoted: bool): Pending {
    match w
    case None => Pending(text, quoted)
    case Some(p) => Pending(p.text + text, p.quoted || quoted)
  }

  function Finished(w: Option<Pending>): seq<Token> {
    match w
    case None => []
    case Some(p) => [Word(p.text, p.quoted)]
  }

  /** An unquoted number right before a redirection names the file descriptor. */
  function FinishedBefore(w: Option<Pending>, op: char): seq<Token> {
    if w.Some? && !w.value.quoted && Digits(w.value.text) && op in {'<', '>'} then [IoNumber(w.value.text)]
    else Finished(w)
  }

  function Prepend(ts: seq<Token>, rest: Option<seq<Token>>): Option<seq<Token>> {
    match rest
    case None => None
    case Some(more) => Some(ts + more)
  }

  /** Outside quotes. `None`: an unterminated quote, a NUL (no command line can hold one), or unmodelled. */
  function Unquoted(s: string, w: Option<Pending>): Option<seq<Token>>
    decreases |s|
  {
    if s == "" then Some(Finished(w))
    else if s[0] == QUOTE then Quoted(s[1..], Extended(w, "", true))
    else if s[0] == '\\' then
      if |s| == 1 || s[1] == '\0' then None
      else if s[1] == '\n' then Unquoted(s[2..], w)
      else Unquoted(s[2..], Some(Extended(w, [s[1]], true)))
    else if Blank(s[0]) then Prepend(Finished(w), Unquoted(s[1..], None))
    else if s[0] == '\n' then Prepend(Finished(w) + [Newline], Unquoted(s[1..], None))
    else if OperatorStart(s[0]) then
      var n := OperatorLength(s);
      Prepend(FinishedBefore(w, s[0]) + [Operator(s[..n])], Unquoted(s[n..], None))
    else if Plain(s[0]) then Unquoted(s[1..], Some(Extended(w, [s[0]], false)))
    else None
  }

  /** Between single quotes every character but the quote is literal. */
  function Quoted(s: string, p: Pending): Option<seq<Token>>
    decreases |s|
  {
    if s == "" || s[0] == '\0' then None
    else if s[0] == QUOTE then Unquoted(s[1..], Some(p))
    else Quoted(s[1..], p.(text := p.text + [s[0]]))
  }

  function Tokenize(s: string): Option<seq<Token>> {
    Unquoted(s, None)
  }

  // ----- one word -----

  predicate NulFree(s: string) {
    forall i :: 0 <= i < |s| ==> s[i] != '\0'
  }

  /** The escape of a single quote, read from inside the quotes: one literal quote, and inside them again. */
  lemma {:induction false} ReadsEscapedQuote(rest: string, p: Pending)
    requires p.quoted
    ensures Quoted("'\\''" + rest, p) == Quoted(rest, p.(text := p.text + [QUOTE]))
  {
    var s := "'\\''" + rest;
    assert s[1..] == "\\''" + rest;
    assert s[1..][2..] == "'" + rest;
    assert ("'" + rest)[1..] == rest;
    var q := p.(text := p.text + [QUOTE]);
    assert Unquoted("'" + rest, Some(q)) == Quoted(rest, Extended(Some(q), "", true));
    assert q.text + "" == q.text;
  }

  lemma {:induction false} ReadsEscaped(s: string, rest: string, p: Pending)
    requires p.quoted
    ensures NulFree(s) ==> Quoted(Escaped(s) + "'" + rest, p) == Unquoted(rest, Some(p.(text := p.text + s)))
    ensures !NulFree(s) ==> Quoted(Escaped(s) + "'" + rest, p).None?
    decreases |s|
  {
    var tail := Escaped(s) + "'" + rest;
    if s == "" {
      assert tail[1..] == rest;
      assert p.text + s == p.text;
    } else {
      var after := Escaped(s[1..]) + "'" + rest;
      assert NulFree(s) <==> s[0] != '\0' && NulFree(s[1..]);
      var q := p.(text := p.text + [s[0]]);
      assert q.text + s[1..] == p.text + s;
      ReadsEscaped(s[1..], rest, q);
      if s[0] == QUOTE {
        assert tail == "'\\''" + after;
        ReadsEscapedQuote(after, p);
      } else {
        assert tail == [s[0]] + after && tail[1..] == after;
      }
    }
  }

  /** Wherever an unquoted character may stand, also in the middle of a word, a quoted string adds exactly its
      own text to the word, unless it holds a NUL, and then nothing can be read. */
  lemma {:induction false} ReadsQuoted(s: string, rest: string, w: Option<Pending>)
    ensures NulFree(s) ==> Unquoted(ShQuote(s) + rest, w) == Unquoted(rest, Some(Extended(w, s, true)))
    ensures !NulFree(s) ==> Unquoted(ShQuote(s) + rest, w).None?
  {
    var p := Extended(w, "", true);
    assert (ShQuote(s) + rest)[1..] == Escaped(s) + "'" + rest;
    assert p.(text := p.text + s) == Extended(w, s, true);
    ReadsEscaped(s, rest, p);
  }

  // ----- the argument list -----

  predicate AllNulFree(words: seq<string>) {
    forall i :: 0 <= i < |words| ==> NulFree(words[i])
  }

  function AsWords(words: seq<string>): (ts: seq<Token>)
    ensures |ts| == |words| && forall i :: 0 <= i < |ts| ==> ts[i] == Word(words[i], true)
  {
    if words == [] then [] else [Word(words[0], true)] + AsWords(words[1..])
  }

  /** One quoted word before a blank, or at the end. */
  lemma {:induction false} ReadsQuotedWord(word: string, rest: string)
    requires rest == "" || Blank(rest[0])
    ensures NulFree(word) ==> Unquoted(ShQuote(word) + rest, None) == Prepend([Word(word, true)], Unquoted(rest, None))
    ensures !NulFree(word) ==> Unquoted(ShQuote(word) + rest, None).None?
  {
    hide Unquoted, ShQuote, NulFree;
    ReadsQuoted(word, rest, None);
    FinishesAtBlank(rest, Some(Extended(None, word, true)));
  }

  /** A list of quoted words before a blank, or at the end, reads as those words. */
  lemma {:induction false} ReadsJoined(words: seq<string>, rest: string)
    requires rest == "" || Blank(rest[0])
    ensures AllNulFree(words) ==> Unquoted(Joined(words) + rest, None) == Prepend(AsWords(words), Unquoted(rest, None))
    ensures !AllNulFree(words) ==> Unquoted(Joined(words) + rest, None).None?
    decreases |words|
  {
    hide Unquoted, ShQuote, NulFree;
    if words == [] {
      assert "" + rest == rest;
      PrependNothing(Unquoted(rest, None));
    } else {
      var first, more := words[0], words[1..];
      assert AllNulFree(words) <==> NulFree(first) && AllNulFree(more);
      if more == [] {
        ReadsQuotedWord(first, rest);
        assert AsWords(words) == [Word(first, true)];
      } else {
        var after := " " + (Joined(more) + rest);
        assert Joined(words) + rest == ShQuote(first) + after;
        ReadsQuotedWord(first, after);
        ReadsJoined(more, rest);
        ReadsBlank(Joined(more) + rest);
        PrependTwice([Word(first, true)], AsWords(more), Unquoted(rest, None));
        assert AsWords(words) == [Word(first, true)] + AsWords(more);
      }
    }
  }

  lemma {:induction false} PrependNothing(rest: Option<seq<Token>>)
    ensures Prepend([], rest) == rest
  {
    assert rest.Some? ==> [] + rest.value == rest.value;
  }

  lemma {:induction false} PrependTwice(a: seq<Token>, b: seq<Token>, rest: Option<seq<Token>>)
    ensures Prepend(a, Prepend(b, rest)) == Prepend(a + b, rest)
  {
    assert rest.Some? ==> a + (b + rest.value) == (a + b) + rest.value;
  }

  lemma {:induction false} FinishesAtBlank(rest: string, w: Option<Pending>)
    requires rest == "" || Blank(rest[0])
    ensures Unquoted(rest, w) == Prepend(Finished(w), Unquoted(rest, None))
  {
    if rest == "" {
      assert Finished(w) + [] == Finished(w);
    } else {
      PrependTwice(Finished(w), [], Unquoted(rest[1..], None));
      PrependNothing(Unquoted(rest[1..], None));
    }
  }

  /** The shell reads back exactly the list that was printed, if and only if no word holds a NUL. */
  lemma {:induction false} RoundTripIffNulFree(words: seq<string>)
    ensures Tokenize(Joined(words)) == Some(AsWords(words)) <==> AllNulFree(words)
    ensures Tokenize(Joined(words)).None? <==> !AllNulFree(words)
  {
    ReadsJoined(words, "");
    assert Joined(words) + "" == Joined(words);
    assert AsWords(words) + [] == AsWords(words);
  }

  /** So two different argument lists never print alike. */
  lemma {:induction false} JoinedIsInjective(a: seq<string>, b: seq<string>)
    requires AllNulFree(a) && AllNulFree(b) && Joined(a) == Joined(b)
    ensures a == b
  {
    RoundTripIffNulFree(a);
    RoundTripIffNulFree(b);
    forall i | 0 <= i < |a|
      ensures a[i] == b[i]
    {
      assert AsWords(a)[i] == AsWords(b)[i];
    }
  }

  // ----- the supervised command line -----

  lemma {:induction false} ReadsPlain(s: string, rest: string, w: Pending)
    requires AllPlain(s) && !w.quoted
    ensures Unquoted(s + rest, Some(w)) == Unquoted(rest, Some(Pending(w.text + s, false)))
    decreases |s|
  {
    if s == "" {
      assert s + rest == rest && w.text + s == w.text;
    } else {
      assert (s + rest)[1..] == s[1..] + rest;
      assert w.text + s == (w.text + [s[0]]) + s[1..];
      ReadsPlain(s[1..], rest, Pending(w.text + [s[0]], false));
    }
  }

  /** A bare word and the blank after it. */
  lemma {:induction false} ReadsBareWord(s: string, rest: string)
    requires s != "" && AllPlain(s)
    ensures Unquoted(s + " " + rest, None) == Prepend([Word(s, false)], Unquoted(rest, None))
  {
    var t := s + " " + rest;
    assert t[1..] == s[1..] + (" " + rest);
    assert Unquoted(t, None) == Unquoted(t[1..], Some(Pending([s[0]], false)));
    ReadsPlain(s[1..], " " + rest, Pending([s[0]], false));
    assert [s[0]] + s[1..] == s;
    assert (" " + rest)[1..] == rest;
  }

  lemma {:induction false} ReadsBlank(rest: string)
    ensures Unquoted(" " + rest, None) == Unquoted(rest, None)
  {
    assert (" " + rest)[1..] == rest;
    PrependNothing(Unquoted(rest, None));
  }

  lemma {:induction false} ReadsOperator(op: string, rest: string, w: Option<Pending>)
    requires op != "" && OperatorStart(op[0]) && OperatorLength(op + rest) == |op|
    ensures Unquoted(op + rest, w) == Prepend(FinishedBefore(w, op[0]) + [Operator(op)], Unquoted(rest, None))
  {
    assert (op + rest)[|op|..] == rest && (op + rest)[..|op|] == op;
  }

  lemma {:induction false} ReadsLoneOperator(op: string, rest: string)
    requires op != "" && OperatorStart(op[0]) && OperatorLength(op + rest) == |op|
    ensures Unquoted(op + rest, None) == Prepend([Operator(op)], Unquoted(rest, None))
  {
    ReadsOperator(op, rest, None);
    assert [] + [Operator(op)] == [Operator(op)];
  }

  function RedirectionTokens(): seq<Token> {
    [IoNumber("2"), Operator(">&"), Word("1", false), Operator(")"), Operator("&"), Newline]
  }

  lemma {:induction false} ReadsLastNewline(w: Option<Pending>)
    ensures Unquoted("\n", w) == Some(Finished(w) + [Newline])
  {
    assert "\n"[1..] == "" && Unquoted("", None) == Some(Finished(None));
    assert Finished(w) + [Newline] + [] == Finished(w) + [Newline];
  }

  /** The end of the line, after the redirections. */
  lemma {:induction false} ReadsBackground()
    ensures Unquoted(") &\n", None) == Some([Operator(")"), Operator("&"), Newline])
  {
    hide Unquoted;
    ReadsLastNewline(None);
    assert [] + [Newline] == [Newline];
    ReadsLoneOperator("&", "\n");
    assert "&" + "\n" == "&\n";
    ReadsBlank("&\n");
    assert " " + "&\n" == " &\n";
    ReadsLoneOperator(")", " &\n");
    assert ")" + " &\n" == ") &\n";
    assert [Operator(")")] + ([Operator("&")] + [Newline]) == [Operator(")"), Operator("&"), Newline];
  }

  lemma {:induction false} ReadsDuplicatedOutput(w: Pending)
    requires w == Pending("2", false)
    ensures Unquoted(">&1 ) &\n", Some(w)) == Some(RedirectionTokens())
  {
    assert FinishedBefore(Some(w), '>') == [IoNumber("2")];
    hide Unquoted, FinishedBefore, Digits;
    ReadsBackground();
    ReadsBareWord("1", ") &\n");
    hide AllPlain;
    assert "1" + " " + ") &\n" == "1 ) &\n";
    ReadsOperator(">&", "1 ) &\n", Some(w));
    assert ">&" + "1 ) &\n" == ">&1 ) &\n";
    assert [IoNumber("2")] + [Operator(">&")] + ([Word("1", false)] + [Operator(")"), Operator("&"), Newline])
        == RedirectionTokens();
  }

  lemma {:induction false} ReadsRedirection()
    ensures Unquoted("2>&1 ) &\n", None) == Some(RedirectionTokens())
  {
    var s := "2>&1 ) &\n";
    assert s[0] == '2' && s[1..] == ">&1 ) &\n";
    assert Unquoted(s, None) == Unquoted(s[1..], Some(Extended(None, "2", false)));
    hide Unquoted;
    ReadsDuplicatedOutput(Pending("2", false));
  }

  lemma {:induction false} ReadsLogPath(logPath: string)
    ensures NulFree(logPath) ==>
              Unquoted(" > " + (ShQuote(logPath) + " 2>&1 ) &\n"), None)
              == Some([Operator(">"), Word(logPath, true)] + RedirectionTokens())
    ensures !NulFree(logPath) ==> Unquoted(" > " + (ShQuote(logPath) + " 2>&1 ) &\n"), None).None?
  {
    hide Unquoted, Quoted, ShQuote, RedirectionTokens;
    var tail := "2>&1 ) &\n";
    var path := ShQuote(logPath) + " 2>&1 ) &\n";
    ReadsRedirection();
    ReadsBlank(tail);
    assert " " + tail == " 2>&1 ) &\n";
    ReadsQuotedWord(logPath, " " + tail);
    ReadsBlank(path);
    ReadsLoneOperator(">", " " + path);
    ReadsBlank(">" + (" " + path));
    assert " " + (">" + (" " + path)) == " > " + path;
    assert [Operator(">")] + ([Word(logPath, true)] + RedirectionTokens())
        == [Operator(">"), Word(logPath, true)] + RedirectionTokens();
  }

  /** What the shell makes of the spawn line: a background subshell that execs exactly the argument list, every
      word quoted data, with its output and errors redirected to exactly the log path. */
  lemma {:induction false} SpawnLineRunsArgv(argv: seq<string>, logPath: string)
    ensures (AllNulFree(argv) && NulFree(logPath)) ==>
              Tokenize(SpawnLine(argv, logPath))
              == Some([Operator("("), Word("exec", false)] + AsWords(argv) + [Operator(">"), Word(logPath, true)]
                      + RedirectionTokens())
    ensures !(AllNulFree(argv) && NulFree(logPath)) ==> Tokenize(SpawnLine(argv, logPath)).None?
  {
    hide Unquoted, Quoted, ShQuote, Joined, RedirectionTokens, AllNulFree, NulFree, AsWords;
    var redirect := " > " + (ShQuote(logPath) + " 2>&1 ) &\n");
    var command := Joined(argv) + redirect;
    ReadsLogPath(logPath);
    ReadsJoined(argv, redirect);
    ReadsBareWord("exec", command);
    ReadsBlank("exec" + " " + command);
    ReadsLoneOperator("(", " " + ("exec" + " " + command));
    assert SpawnLine(argv, logPath) == "(" + (" " + ("exec" + " " + command));
    if AllNulFree(argv) && NulFree(logPath) {
      var rest := [Operator(">"), Word(logPath, true)] + RedirectionTokens();
      assert [Operator("(")] + ([Word("exec", false)] + (AsWords(argv) + rest))
          == [Operator("("), Word("exec", false)] + AsWords(argv) + [Operator(">"), Word(logPath, true)]
             + RedirectionTokens();
    }
  }

  /** An exported variable gets exactly its value, for a name of plain characters. */
  lemma {:induction false} ExportLineSetsValue(name: string, value: string)
    requires AllPlain(name)
    ensures NulFree(value) ==>
              Tokenize(ExportLine(name, value))
              == Some([Word("export", false), Word(name + "=" + value, true), Newline])
    ensures !NulFree(value) ==> Tokenize(ExportLine(name, value)).None?
  {
    var quoted := ShQuote(value) + "\n";
    var assignment := name + "=" + quoted;
    assert ExportLine(name, value) == "export" + " " + assignment;
    ReadsBareWord("export", assignment);
    var prefix := name + "=";
    assert AllPlain(prefix) && assignment == prefix + quoted;
    var word := Word(prefix + value, true);
    assert [Word("export", false)] + ([word] + [Newline]) == [Word("export", false), word, Newline];
    assert assignment[1..] == prefix[1..] + quoted;
    assert Unquoted(assignment, None) == Unquoted(assignment[1..], Some(Pending([prefix[0]], false)));
    hide Unquoted, ShQuote;
    ReadsPlain(prefix[1..], quoted, Pending([prefix[0]], false));
    assert [prefix[0]] + prefix[1..] == prefix;
    ReadsQuoted(value, "\n", Some(Pending(prefix, false)));
    ReadsLastNewline(Some(Pending(prefix + value, true)));
  }
}
