/** The shell quoter of the GStreamer command builder (src/media/gstreamer/GStreamerPipelineBuilder.cpp lines 88-99
    and 127-155) and a reader for sections 2.2 and 2.3 of the POSIX Shell Command Language. */
module ShellQuote {
  import opened Foundation
  import opened Text

  /** Characters the quoter leaves bare. */
  predicate Plain(c: char) {
    IsAlnum(c) || c == '_' || c == '-' || c == '/' || c == '.' || c == '='
  }

  predicate AllPlain(s: string) {
    forall k :: 0 <= k < |s| ==> Plain(s[k])
  }

  const QUOTE := '\''
  const BACKSLASH := '\\'

  /** Inside single quotes: a quote closes, is escaped outside, and opens again. */
  function Escape(s: string): string {
    if s == "" then ""
    else (if s[0] == QUOTE then [QUOTE, BACKSLASH, QUOTE, QUOTE] else [s[0]]) + Escape(s[1..])
  }

  function Quoted(value: string): string {
    if value == "" then [QUOTE, QUOTE]
    else if AllPlain(value) then value
    else [QUOTE] + Escape(value) + [QUOTE]
  }

  /** The arguments from some point on, each but the very first behind a space. */
  function Words(args: seq<string>, first: bool): string {
    if args == [] then "" else (if first then "" else " ") + (Quoted(args[0]) + Words(args[1..], false))
  }

  function Command(args: seq<string>): string { Words(args, true) }

  method QuoteForShell(value: string) returns (out: string)
    ensures out == Quoted(value)
  {
    if value == "" {
      return [QUOTE, QUOTE];
    }
    var needQuote := false;
    for i := 0 to |value|
      invariant !needQuote && AllPlain(value[..i])
    {
      if !Plain(value[i]) {
        needQuote := true;
        assert !AllPlain(value);
        break;
      }
      assert value[..i + 1] == value[..i] + [value[i]];
    }
    assert value[..|value|] == value;
    if !needQuote {
      return value;
    }
    out := [QUOTE];
    for i := 0 to |value|
      invariant out + Escape(value[i..]) == [QUOTE] + Escape(value)
    {
      assert value[i..][1..] == value[i + 1..];
      if value[i] == QUOTE {
        out := out + [QUOTE, BACKSLASH, QUOTE, QUOTE];
      } else {
        out := out + [value[i]];
      }
    }
    out := out + [QUOTE];
  }

  lemma FirstWord(args: seq<string>, i: nat)
    requires i < |args|
    ensures Words(args[i..], i == 0) == (if i == 0 then "" else " ") + (Quoted(args[i]) + Words(args[i + 1..], false))
  {
    assert args[i..][1..] == args[i + 1..];
  }

  lemma NoMoreWords(args: seq<string>, first: bool)
    ensures Words(args[|args|..], first) == ""
  {
  }

  method ToShellCommand(args: seq<string>) returns (text: string)
    ensures text == Command(args)
  {
    hide Quoted, Words;
    text := "";
    assert args[0..] == args;
    for i := 0 to |args|
      invariant text + Words(args[i..], i == 0) == Command(args)
    {
      FirstWord(args, i);
      if i != 0 {
        text := text + " ";
      }
      var word := QuoteForShell(args[i]);
      text := text + word;
    }
    NoMoreWords(args, |args| == 0);
  }

  // ---------------------------------------------------------------- the shell's reading

  datatype Mode = Between | InWord | InQuotes

  /** Unquoted characters that have or may have a meaning of their own. */
  predicate Special(c: char) {
    || c == '|' || c == '&' || c == ';' || c == '<' || c == '>' || c == '(' || c == ')' || c == '$' || c == '`'
    || c == '"' || c == '\n' || c == '*' || c == '?' || c == '[' || c == '#' || c == '~' || c == '%'
    || c == '{' || c == '}' || c == '!'
  }

  /** Split into words with quotes removed; `None` when a special character is unquoted or a quote is not closed. */
  function Split(s: string, mode: Mode, word: string): Option<seq<string>> {
    if s == "" then
      match mode
      case Between => Some([])
      case InWord => Some([word])
      case InQuotes => None
    else if mode == InQuotes then
      if s[0] == QUOTE then Split(s[1..], InWord, word) else Split(s[1..], InQuotes, word + [s[0]])
    else if s[0] == ' ' || s[0] == '\t' then
      if mode == Between then Split(s[1..], Between, "")
      else
        var rest := Split(s[1..], Between, "");
        if rest.None? then None else Some([word] + rest.value)
    else if s[0] == QUOTE then Split(s[1..], InQuotes, word)
    else if s[0] == BACKSLASH then
      if |s| == 1 then None
      else if s[1] == '\n' then Split(s[2..], mode, word)
      else Split(s[2..], InWord, word + [s[1]])
    else if Special(s[0]) then None
    else Split(s[1..], InWord, word + [s[0]])
  }

  lemma {:induction false} ReadPlain(s: string, rest: string, word: string)
    requires AllPlain(s)
    ensures Split(s + rest, InWord, word) == Split(rest, InWord, word + s)
  {
    if s == "" {
      assert s + rest == rest && word + s == word;
    } else {
      assert Plain(s[0]) && (s + rest)[1..] == s[1..] + rest;
      ReadPlain(s[1..], rest, word + [s[0]]);
      assert word + [s[0]] + s[1..] == word + s;
    }
  }

  lemma ReadEscapedQuote(rest: string, word: string)
    ensures Split([QUOTE, BACKSLASH, QUOTE, QUOTE] + rest, InQuotes, word) == Split(rest, InQuotes, word + [QUOTE])
  {
    var s := [QUOTE, BACKSLASH, QUOTE, QUOTE] + rest;
    assert s[1..][2..] == [QUOTE] + rest && ([QUOTE] + rest)[1..] == rest;
    assert Split(s, InQuotes, word) == Split(s[1..], InWord, word);
    assert Split(s[1..], InWord, word) == Split([QUOTE] + rest, InWord, word + [QUOTE]);
  }

  lemma {:induction false} ReadEscape(s: string, rest: string, word: string)
    ensures Split(Escape(s) + ([QUOTE] + rest), InQuotes, word) == Split(rest, InWord, word + s)
  {
    var tail := [QUOTE] + rest;
    if s == "" {
      assert Escape(s) + tail == tail && tail[1..] == rest && word + s == word;
    } else {
      var head := if s[0] == QUOTE then [QUOTE, BACKSLASH, QUOTE, QUOTE] else [s[0]];
      var more := Escape(s[1..]) + tail;
      assert Escape(s) + tail == head + more;
      assert word + [s[0]] + s[1..] == word + s;
      ReadEscape(s[1..], rest, word + [s[0]]);
      if s[0] == QUOTE {
        ReadEscapedQuote(more, word);
      } else {
        assert (head + more)[1..] == more;
      }
    }
  }

  lemma ReadBareWord(value: string, rest: string)
    requires value != "" && AllPlain(value)
    ensures Split(value + rest, Between, "") == Split(rest, InWord, value)
  {
    var s := value + rest;
    assert Plain(value[0]) && s[0] == value[0] && s[1..] == value[1..] + rest;
    assert "" + [value[0]] == [value[0]] && [value[0]] + value[1..] == value;
    assert Split(s, Between, "") == Split(s[1..], InWord, [value[0]]);
    ReadPlain(value[1..], rest, [value[0]]);
  }

  lemma ReadEmptyWord(rest: string)
    ensures Split([QUOTE, QUOTE] + rest, Between, "") == Split(rest, InWord, "")
  {
    var s := [QUOTE, QUOTE] + rest;
    assert s[1..][0] == QUOTE && s[1..][1..] == rest;
    assert Split(s, Between, "") == Split(s[1..], InQuotes, "");
  }

  lemma ReadEscapedWord(value: string, rest: string)
    ensures Split([QUOTE] + Escape(value) + [QUOTE] + rest, Between, "") == Split(rest, InWord, value)
  {
    hide Escape;
    var s := [QUOTE] + Escape(value) + [QUOTE] + rest;
    assert s[1..] == Escape(value) + ([QUOTE] + rest);
    assert Split(s, Between, "") == Split(s[1..], InQuotes, "");
    ReadEscape(value, rest, "");
    assert "" + value == value;
  }

  /** A text is left bare exactly if it is not empty and has only letters, digits and `_ - / . =`. */
  lemma LeftBare(value: string)
    ensures Quoted(value) == value <==>
              && value != ""
              && forall k :: 0 <= k < |value| ==>
                   || 'a' <= value[k] <= 'z' || 'A' <= value[k] <= 'Z' || '0' <= value[k] <= '9'
                   || value[k] in "_-/.="
  {
    EscapeGrows(value);
  }

  lemma {:induction false} EscapeGrows(s: string)
    ensures |Escape(s)| >= |s|
  {
    if s != "" { EscapeGrows(s[1..]); }
  }

  /** A quoted argument is read as one word that is the argument. */
  lemma ReadQuoted(value: string, rest: string)
    ensures Split(Quoted(value) + rest, Between, "") == Split(rest, InWord, value)
  {
    hide Split, Escape, AllPlain;
    if value == "" {
      ReadEmptyWord(rest);
    } else if AllPlain(value) {
      ReadBareWord(value, rest);
    } else {
      ReadEscapedWord(value, rest);
    }
  }

  /** Reading a printed command gives back exactly the arguments, whatever characters they hold. */
  lemma {:induction false} CommandReadsBack(args: seq<string>)
    ensures Split(Command(args), Between, "") == Some(args)
  {
    if args != [] {
      WordsReadBack(args);
    }
  }

  lemma {:induction false} WordsReadBack(args: seq<string>)
    requires args != []
    ensures Split(Words(args, true), Between, "") == Some(args)
  {
    hide Quoted;
    var rest := args[1..];
    assert Words(args, true) == Quoted(args[0]) + Words(rest, false);
    ReadQuoted(args[0], Words(rest, false));
    if rest != [] {
      WordsReadBack(rest);
      assert Words(rest, false)[1..] == Words(rest, true);
      assert [args[0]] + rest == args;
    } else {
      assert args == [args[0]];
    }
  }

  /** Different argument lists print differently. */
  lemma CommandInjective(a: seq<string>, b: seq<string>)
    ensures Command(a) == Command(b) <==> a == b
  {
    CommandReadsBack(a);
    CommandReadsBack(b);
  }
}
