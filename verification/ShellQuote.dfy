/** Quoting a trace target for the remote shell, against how the shell reads the command line
    (POSIX.1-2017, Shell Command Language, sections 2.2.1 to 2.2.3 and 2.3). */
module ShellQuote {
  import opened Wrappers

  // ----- the shell's side -----

  /** Operator characters are listed one at a time. */
  datatype Token = Word(text: string) | Operator(c: char)

  predicate IsBlank(c: char) { c == ' ' || c == '\t' }

  predicate IsOperator(c: char) {
    c == '\n' || c == ';' || c == '&' || c == '|' || c == '<' || c == '>' || c == '(' || c == ')'
  }

  predicate EndsWord(c: char) { IsBlank(c) || IsOperator(c) }

  /** Unquoted, these may start an expansion or a comment: no reading here. */
  predicate IsSpecial(c: char) {
    c == '$' || c == '`' || c == '*' || c == '?' || c == '[' || c == '#' || c == '~' || c == '=' || c == '%'
  }

  /** Nor for these between double quotes. */
  predicate IsSpecialInDouble(c: char) { c == '$' || c == '`' || c == '\\' }

  datatype Reading = Reading(text: string, rest: string)

  function Prepend(c: char, r: Option<Reading>): Option<Reading> {
    if r.Some? then Some(Reading([c] + r.value.text, r.value.rest)) else None
  }

  /** The word up to its end, outside quotes: a backslash keeps the next character, and with a
      newline after it both disappear. */
  function Unquoted(s: string): (r: Option<Reading>)
    ensures r.Some? ==> |r.value.rest| <= |s| && (s != "" && !EndsWord(s[0]) ==> |r.value.rest| < |s|)
    decreases |s|
  {
    if s == "" || EndsWord(s[0]) then Some(Reading("", s))
    else if s[0] == '\'' then InQuotes(s[1..])
    else if s[0] == '"' then InDouble(s[1..])
    else if s[0] == '\\' then
      if |s| == 1 then None
      else if s[1] == '\n' then Unquoted(s[2..])
      else Prepend(s[1], Unquoted(s[2..]))
    else if IsSpecial(s[0]) then None
    else Prepend(s[0], Unquoted(s[1..]))
  }

  /** Between single quotes every character stands for itself. */
  function InQuotes(s: string): (r: Option<Reading>)
    ensures r.Some? ==> |r.value.rest| < |s|
    decreases |s|
  {
    if s == "" then None
    else if s[0] == '\'' then Unquoted(s[1..])
    else Prepend(s[0], InQuotes(s[1..]))
  }

  /** Between double quotes all others do too. */
  function InDouble(s: string): (r: Option<Reading>)
    ensures r.Some? ==> |r.value.rest| < |s|
    decreases |s|
  {
    if s == "" || IsSpecialInDouble(s[0]) then None
    else if s[0] == '"' then Unquoted(s[1..])
    else Prepend(s[0], InDouble(s[1..]))
  }

  function Cons(t: Token, ts: Option<seq<Token>>): Option<seq<Token>> {
    if ts.Some? then Some([t] + ts.value) else None
  }

  predicate Continues(s: string) { |s| >= 2 && s[0] == '\\' && s[1] == '\n' }

  /** All tokens of a command line. */
  function Tokens(s: string): Option<seq<Token>>
    decreases |s|
  {
    if s == "" then Some([])
    else if IsBlank(s[0]) then Tokens(s[1..])
    else if IsOperator(s[0]) then Cons(Operator(s[0]), Tokens(s[1..]))
    else if Continues(s) then Tokens(s[2..])
    else
      var r := Unquoted(s);
      if r.Some? then Cons(Word(r.value.text), Tokens(r.value.rest)) else None
  }

  // ----- the program's side -----

  function Escape(s: string): string {
    if s == "" then "" else (if s[0] == '\'' then "'\\''" else [s[0]]) + Escape(s[1..])
  }

  function Quote(s: string): string { "'" + Escape(s) + "'" }

  // ----- the two together -----

  predicate AtWordEnd(tail: string) { tail == "" || EndsWord(tail[0]) }

  /** Closing, an escaped apostrophe, opening again. */
  lemma ApostropheReads(rest: string)
    ensures InQuotes("'\\''" + rest) == Prepend('\'', InQuotes(rest))
  {
    var line := "'\\''" + rest;
    var unquoted := "\\''" + rest;
    assert line[1..] == unquoted;
    assert unquoted[2..] == "'" + rest;
    assert ("'" + rest)[1..] == rest;
    assert Unquoted("'" + rest) == InQuotes(rest);
    assert Unquoted(unquoted) == Prepend('\'', Unquoted("'" + rest));
  }

  lemma {:induction false} EscapeReads(s: string, tail: string)
    requires AtWordEnd(tail)
    ensures InQuotes(Escape(s) + "'" + tail) == Some(Reading(s, tail))
  {
    if s == "" {
      assert (Escape(s) + "'" + tail)[1..] == tail;
    } else {
      EscapeReads(s[1..], tail);
      var rest := Escape(s[1..]) + "'" + tail;
      assert s == [s[0]] + s[1..];
      if s[0] == '\'' {
        assert Escape(s) + "'" + tail == "'\\''" + rest;
        ApostropheReads(rest);
      } else {
        assert Escape(s) + "'" + tail == [s[0]] + rest;
        assert ([s[0]] + rest)[1..] == rest;
      }
    }
  }

  /** One quoted text, whatever it holds, reads as exactly one word: itself. */
  lemma QuoteIsOneWord(s: string, tail: string)
    requires AtWordEnd(tail)
    ensures Tokens(Quote(s) + tail) == Cons(Word(s), Tokens(tail))
  {
    EscapeReads(s, tail);
    assert (Quote(s) + tail)[1..] == Escape(s) + "'" + tail;
  }

  function Append(a: Option<seq<Token>>, b: Option<seq<Token>>): Option<seq<Token>> {
    if a.Some? && b.Some? then Some(a.value + b.value) else None
  }

  /** A word that is complete before a separator reads the same with the separator behind it. */
  lemma {:induction false} WordThenTail(s: string, tail: string)
    requires AtWordEnd(tail)
    ensures Unquoted(s).Some? ==>
              Unquoted(s + tail) == Some(Reading(Unquoted(s).value.text, Unquoted(s).value.rest + tail))
    decreases |s|, 1
  {
    if s == "" {
      assert s + tail == tail;
    } else if EndsWord(s[0]) {
    } else if s[0] == '\'' {
      assert (s + tail)[1..] == s[1..] + tail;
      QuotedThenTail(s[1..], tail);
    } else if s[0] == '"' {
      assert (s + tail)[1..] == s[1..] + tail;
      DoubleThenTail(s[1..], tail);
    } else if s[0] == '\\' {
      if |s| > 1 {
        assert (s + tail)[2..] == s[2..] + tail;
        WordThenTail(s[2..], tail);
      }
    } else {
      assert (s + tail)[1..] == s[1..] + tail;
      WordThenTail(s[1..], tail);
    }
  }

  lemma {:induction false} QuotedThenTail(s: string, tail: string)
    requires AtWordEnd(tail)
    ensures InQuotes(s).Some? ==>
              InQuotes(s + tail) == Some(Reading(InQuotes(s).value.text, InQuotes(s).value.rest + tail))
    decreases |s|, 0
  {
    if s != "" {
      assert (s + tail)[1..] == s[1..] + tail;
      if s[0] == '\'' {
        WordThenTail(s[1..], tail);
      } else {
        QuotedThenTail(s[1..], tail);
      }
    }
  }

  lemma {:induction false} DoubleThenTail(s: string, tail: string)
    requires AtWordEnd(tail)
    ensures InDouble(s).Some? ==>
              InDouble(s + tail) == Some(Reading(InDouble(s).value.text, InDouble(s).value.rest + tail))
    decreases |s|, 0
  {
    if s != "" {
      assert (s + tail)[1..] == s[1..] + tail;
      if s[0] == '"' {
        WordThenTail(s[1..], tail);
      } else {
        DoubleThenTail(s[1..], tail);
      }
    }
  }

  /** Command lines put together at a separator are read one after the other. */
  lemma {:induction false} TokensThenTail(s: string, tail: string)
    requires AtWordEnd(tail) && Tokens(s).Some?
    ensures Tokens(s + tail) == Append(Tokens(s), Tokens(tail))
    decreases |s|
  {
    var line := s + tail;
    if s == "" {
      assert line == tail;
      assert Tokens(tail).Some? ==> [] + Tokens(tail).value == Tokens(tail).value;
    } else if IsBlank(s[0]) || IsOperator(s[0]) {
      assert line[1..] == s[1..] + tail;
      TokensThenTail(s[1..], tail);
      ConsAppend(Operator(s[0]), Tokens(s[1..]), Tokens(tail));
    } else if Continues(s) {
      assert line[2..] == s[2..] + tail;
      TokensThenTail(s[2..], tail);
    } else {
      var r := Unquoted(s).value;
      NoContinuation(s, tail);
      WordThenTail(s, tail);
      TokensThenTail(r.rest, tail);
      ConsAppend(Word(r.text), Tokens(r.rest), Tokens(tail));
    }
  }

  lemma ConsAppend(t: Token, a: Option<seq<Token>>, b: Option<seq<Token>>)
    ensures Append(Cons(t, a), b) == Cons(t, Append(a, b))
  {
    if a.Some? && b.Some? {
      assert [t] + a.value + b.value == [t] + (a.value + b.value);
    }
  }

  lemma NoContinuation(s: string, tail: string)
    requires s != "" && !Continues(s) && Unquoted(s).Some? && !EndsWord(s[0])
    ensures !Continues(s + tail)
  {
  }

  lemma SpaceQuote(target: string, after: string)
    requires AtWordEnd(after)
    ensures Tokens(" " + Quote(target) + after) == Cons(Word(target), Tokens(after))
  {
    var line := " " + Quote(target) + after;
    assert line[1..] == Quote(target) + after;
    QuoteIsOneWord(target, after);
  }

  /** Put in as one argument of a command line, the target is one word of it, and the rest of the
      line is read as if it were not there. */
  lemma TargetStaysOneWord(before: string, target: string, after: string)
    requires Tokens(before).Some? && AtWordEnd(after)
    ensures Tokens(before + (" " + Quote(target) + after)) ==
            Append(Tokens(before), Cons(Word(target), Tokens(after)))
  {
    TokensThenTail(before, " " + Quote(target) + after);
    SpaceQuote(target, after);
  }

  // ----- the trace script -----

  /** The script around its two mentions of the target: trying one tool, then the other, then
      reporting that there is none. */
  function TryTool(keyword: string, tool: string, options: string): string {
    keyword + " command -v " + tool + " >/dev/null 2>&1; then " + tool + options
  }

  function Neither(): string { "; else echo" + (" \"" + ("SPECTRE_TRACE_NO_TOOL" + "\"" + "; fi")) }

  predicate IsPlain(c: char) { !IsSpecial(c) && c != '\'' && c != '"' && c != '\\' }

  predicate Plain(s: string) { forall i :: 0 <= i < |s| ==> IsPlain(s[i]) }

  lemma {:induction false} PlainReads(s: string)
    requires Plain(s)
    ensures Unquoted(s).Some? && Plain(Unquoted(s).value.rest)
    decreases |s|
  {
    if s != "" && !EndsWord(s[0]) {
      assert IsPlain(s[0]) && Plain(s[1..]);
      PlainReads(s[1..]);
    }
  }

  lemma {:induction false} PlainTokens(s: string)
    requires Plain(s)
    ensures Tokens(s).Some?
    decreases |s|
  {
    if s != "" {
      assert IsPlain(s[0]);
      if EndsWord(s[0]) {
        PlainTokens(s[1..]);
      } else {
        PlainReads(s);
        PlainTokens(Unquoted(s).value.rest);
      }
    }
  }

  lemma {:induction false} DoubleReads(text: string, tail: string)
    requires Plain(text) && AtWordEnd(tail)
    ensures InDouble(text + "\"" + tail) == Some(Reading(text, tail))
  {
    var line := text + "\"" + tail;
    if text == "" {
      assert line[1..] == tail;
    } else {
      DoubleReads(text[1..], tail);
      assert line[1..] == text[1..] + "\"" + tail;
      assert text == [text[0]] + text[1..];
      assert IsPlain(text[0]) && line[0] == text[0];
    }
  }

  lemma EchoReads(start: string, tool: string, fi: string)
    requires Plain(start) && Plain(tool) && Plain(fi) && AtWordEnd(fi)
    ensures Tokens(start + (" \"" + (tool + "\"" + fi))).Some?
  {
    PlainTokens(start);
    PlainTokens(fi);
    DoubleReads(tool, fi);
    var tail := " \"" + (tool + "\"" + fi);
    assert tail[1..][1..] == tool + "\"" + fi;
    assert Tokens(tail[1..]) == Cons(Word(tool), Tokens(fi));
    TokensThenTail(start, tail);
  }

  lemma PlainJoin(a: string, b: string)
    requires Plain(a) && Plain(b)
    ensures Plain(a + b)
  {
  }

  lemma TryToolReads(keyword: string, tool: string, options: string)
    requires Plain(keyword) && Plain(tool) && Plain(options)
    ensures Tokens(TryTool(keyword, tool, options)).Some?
  {
    PlainJoin(keyword, " command -v ");
    PlainJoin(keyword + " command -v ", tool);
    PlainJoin(keyword + " command -v " + tool, " >/dev/null 2>&1; then ");
    PlainJoin(keyword + " command -v " + tool + " >/dev/null 2>&1; then ", tool);
    PlainJoin(keyword + " command -v " + tool + " >/dev/null 2>&1; then " + tool, options);
    PlainTokens(TryTool(keyword, tool, options));
  }

  function WithTargets(before: string, between: string, after: string, target: string): string {
    before + (" " + Quote(target) + (between + (" " + Quote(target) + after)))
  }

  function TokensAround(before: string, between: string, after: string, target: string): seq<Token>
    requires Tokens(before).Some? && Tokens(between).Some? && Tokens(after).Some?
  {
    Tokens(before).value + ([Word(target)] + (Tokens(between).value + ([Word(target)] + Tokens(after).value)))
  }

  lemma TwoTargets(before: string, between: string, after: string, target: string)
    requires Tokens(before).Some? && Tokens(between).Some? && Tokens(after).Some?
    requires AtWordEnd(between) && AtWordEnd(after)
    ensures Tokens(WithTargets(before, between, after, target)) == Some(TokensAround(before, between, after, target))
  {
    var tail := between + (" " + Quote(target) + after);
    assert AtWordEnd(tail);
    TargetStaysOneWord(between, target, after);
    TargetStaysOneWord(before, target, tail);
  }

  predicate ScriptParts(before: string, between: string, after: string) {
    && before == TryTool("if", "traceroute", " -n -q 1 -w 2 -m 30")
    && between == TryTool("; elif", "tracepath", " -n")
    && after == Neither()
  }

  lemma BeforeReads(s: string)
    requires s == TryTool("if", "traceroute", " -n -q 1 -w 2 -m 30")
    ensures Tokens(s).Some?
  {
    TryToolReads("if", "traceroute", " -n -q 1 -w 2 -m 30");
  }

  lemma BetweenReads(s: string)
    requires s == TryTool("; elif", "tracepath", " -n")
    ensures Tokens(s).Some? && AtWordEnd(s)
  {
    TryToolReads("; elif", "tracepath", " -n");
  }

  lemma AfterReads(s: string)
    requires s == Neither()
    ensures Tokens(s).Some? && AtWordEnd(s)
  {
    EchoReads("; else echo", "SPECTRE_TRACE_NO_TOOL", "; fi");
  }

  /** Whatever the target holds, the script is read as three fixed stretches of tokens with the
      target as one word after the first and one word after the second. */
  lemma ScriptNamesTargetTwice(before: string, between: string, after: string, target: string)
    requires ScriptParts(before, between, after)
    ensures Tokens(before).Some? && Tokens(between).Some? && Tokens(after).Some?
    ensures Tokens(WithTargets(before, between, after, target)) == Some(TokensAround(before, between, after, target))
  {
    BeforeReads(before);
    BetweenReads(between);
    AfterReads(after);
    TwoTargets(before, between, after, target);
  }
}
