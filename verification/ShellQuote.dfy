/**
 The compile-then-run entrypoint embeds the run argv in an `sh -c` script. Each argument is
 wrapped in single quotes and every single quote inside it becomes '\''.

 `Tokenize` is the relevant part of the POSIX.1-2017 shell language (XCU sections 2.2.1, 2.2.2 and
 2.3): blanks separate words, a backslash quotes the next character, single quotes quote everything up
 to the next one. Any other character that means something to the shell when unquoted makes it give up.
*/
module ShellQuote {
  import opened Options

  const QUOTE: char := '\''
  const BACKSLASH: char := '\\'

  // ---------------------------------------------------------------- the quoter

  /** strings.ReplaceAll(arg, "'", `'\''`). */
  function Escaped(arg: string): string
  {
    if arg == [] then []
    else (if arg[0] == QUOTE then [QUOTE, BACKSLASH, QUOTE, QUOTE] else [arg[0]]) + Escaped(arg[1..])
  }

  function Quoted(arg: string): string
  {
    [QUOTE] + Escaped(arg) + [QUOTE]
  }

  /** The quoted arguments joined by single spaces. */
  function Joined(argv: seq<string>): string
  {
    if argv == [] then []
    else if |argv| == 1 then Quoted(argv[0])
    else Quoted(argv[0]) + " " + Joined(argv[1..])
  }

  const MARKER: string := "/workspace/.compile_ready"

  /** Waits for the compile step's marker and removes it. */
  const GUARD: string := "while [ ! -f " + MARKER + " ]; do sleep 0.05; done; rm -f " + MARKER + "; "

  function HoldScript(argv: seq<string>): string
  {
    GUARD + ExecLine(argv)
  }

  /** The last command of the script. */
  function ExecLine(argv: seq<string>): string
  {
    "exec " + Joined(argv)
  }

  lemma {:induction false} JoinedSnoc(argv: seq<string>, arg: string)
    requires argv != []
    ensures Joined(argv + [arg]) == Joined(argv) + " " + Quoted(arg)
  {
    assert (argv + [arg])[1..] == argv[1..] + [arg];
    if |argv| > 1 {
      JoinedSnoc(argv[1..], arg);
    } else {
      assert argv[1..] == [] && (argv + [arg])[1..] == [arg];
    }
  }

  method BuildCompileHoldCmd(argv: seq<string>) returns (cmd: seq<string>)
    ensures cmd == if argv == [] then ["sh", "-c", "sleep infinity"] else ["sh", "-c", HoldScript(argv)]
    ensures argv != [] ==>
              cmd[2] == "while [ ! -f " + MARKER + " ]; do sleep 0.05; done; rm -f " + MARKER + "; "
                        + ("exec " + Joined(argv))
  {
    if |argv| == 0 {
      return ["sh", "-c", "sleep infinity"];
    }
    var runShell := "";
    var i := 0;
    while i < |argv|
      invariant 0 <= i <= |argv|
      invariant runShell == Joined(argv[..i])
    {
      var quoted := Quoted(argv[i]);
      assert argv[..i + 1] == argv[..i] + [argv[i]];
      if i == 0 {
        runShell := quoted;
      } else {
        JoinedSnoc(argv[..i], argv[i]);
        runShell := runShell + " " + quoted;
      }
      i := i + 1;
    }
    assert argv[..i] == argv;
    return ["sh", "-c", GUARD + ("exec " + runShell)];
  }

  // ---------------------------------------------------------------- the shell

  /** Between words, inside a word, or inside a single-quoted part of a word. */
  datatype Mode = Between | Word(text: string) | InQuotes(text: string)

  predicate Blank(c: char) { c == ' ' || c == '\t' }

  /** Characters the shell treats specially outside quotes and that this tokenizer does not interpret. */
  predicate Special(c: char)
  {
    c in "|&;<>()$`\"*?[]#~=%!{}\n"
  }

  /** Reads s in the given mode; `done` are the words completed so far. None: an unterminated quote, a trailing
      backslash, or an uninterpreted special character. */
  function Tokenize(s: string, mode: Mode, done: seq<string>): Option<seq<string>>
    decreases |s|
  {
    if s == [] then
      match mode
      case Between => Some(done)
      case Word(text) => Some(done + [text])
      case InQuotes(_) => None
    else if mode.InQuotes? then
      if s[0] == QUOTE then Tokenize(s[1..], Word(mode.text), done)
      else Tokenize(s[1..], InQuotes(mode.text + [s[0]]), done)
    else
      var text := if mode.Word? then mode.text else "";
      if Blank(s[0]) then Tokenize(s[1..], Between, if mode.Word? then done + [text] else done)
      else if s[0] == QUOTE then Tokenize(s[1..], InQuotes(text), done)
      else if s[0] == BACKSLASH then
        if |s| == 1 then None
        else if s[1] == '\n' then Tokenize(s[2..], mode, done)
        else Tokenize(s[2..], Word(text + [s[1]]), done)
      else if Special(s[0]) then None
      else Tokenize(s[1..], Word(text + [s[0]]), done)
  }

  function ShellWords(s: string): Option<seq<string>>
  {
    Tokenize(s, Between, [])
  }

  // ---------------------------------------------------------------- round trip

  /** Close the quotes, a backslash-quoted quote, open them again. */
  lemma ReadEscapedQuote(tail: string, text: string, done: seq<string>)
    ensures Tokenize([QUOTE, BACKSLASH, QUOTE, QUOTE] + tail, InQuotes(text), done)
         == Tokenize(tail, InQuotes(text + [QUOTE]), done)
  {
    var s := [QUOTE, BACKSLASH, QUOTE, QUOTE] + tail;
    var s1, s2 := s[1..], s[3..];
    assert s1[2..] == s2 && s2[1..] == tail;
    assert s1[0] == BACKSLASH && s1[1] == QUOTE && s2[0] == QUOTE;
    assert Tokenize(s, InQuotes(text), done) == Tokenize(s1, Word(text), done);
    assert Tokenize(s1, Word(text), done) == Tokenize(s2, Word(text + [QUOTE]), done);
  }

  /** Inside the opening quote, an escaped argument followed by the closing quote adds exactly the argument. */
  lemma {:induction false} ReadEscaped(arg: string, rest: string, text: string, done: seq<string>)
    ensures Tokenize(Escaped(arg) + [QUOTE] + rest, InQuotes(text), done) == Tokenize(rest, Word(text + arg), done)
    decreases |arg|
  {
    var s := Escaped(arg) + [QUOTE] + rest;
    if arg == [] {
      assert s == [QUOTE] + rest && s[1..] == rest;
      assert text + arg == text;
    } else {
      var tail := Escaped(arg[1..]) + [QUOTE] + rest;
      ReadEscaped(arg[1..], rest, text + [arg[0]], done);
      assert text + [arg[0]] + arg[1..] == text + arg;
      if arg[0] == QUOTE {
        assert s == [QUOTE, BACKSLASH, QUOTE, QUOTE] + tail;
        ReadEscapedQuote(tail, text, done);
      } else {
        assert s == [arg[0]] + tail && s[1..] == tail;
      }
    }
  }

  lemma ReadQuoted(arg: string, rest: string, done: seq<string>)
    ensures Tokenize(Quoted(arg) + rest, Between, done) == Tokenize(rest, Word(arg), done)
  {
    var s := Quoted(arg) + rest;
    assert s[1..] == Escaped(arg) + [QUOTE] + rest;
    ReadEscaped(arg, rest, "", done);
    assert "" + arg == arg;
  }

  predicate Ordinary(c: char) { !Blank(c) && c != QUOTE && c != BACKSLASH && !Special(c) }

  lemma ReadBlank(rest: string, text: string, done: seq<string>)
    ensures Tokenize(" " + rest, Word(text), done) == Tokenize(rest, Between, done + [text])
  {
    assert (" " + rest)[1..] == rest;
  }

  lemma {:induction false} ReadPlain(word: string, rest: string, text: string, done: seq<string>)
    requires forall i :: 0 <= i < |word| ==> Ordinary(word[i])
    ensures Tokenize(word + rest, Word(text), done) == Tokenize(rest, Word(text + word), done)
    decreases |word|
  {
    if word == [] {
      assert word + rest == rest && text + word == text;
    } else {
      assert (word + rest)[1..] == word[1..] + rest;
      ReadPlain(word[1..], rest, text + [word[0]], done);
      assert text + [word[0]] + word[1..] == text + word;
    }
  }

  lemma ReadNext(arg: string, tail: string, done: seq<string>)
    ensures Tokenize(Quoted(arg) + (" " + tail), Between, done) == Tokenize(tail, Between, done + [arg])
  {
    ReadQuoted(arg, " " + tail, done);
    ReadBlank(tail, arg, done);
  }

  lemma ReadLast(arg: string, done: seq<string>)
    ensures Tokenize(Quoted(arg), Between, done) == Some(done + [arg])
  {
    ReadQuoted(arg, "", done);
    assert Quoted(arg) + "" == Quoted(arg);
  }

  lemma JoinedCons(argv: seq<string>)
    requires |argv| > 1
    ensures Joined(argv) == Quoted(argv[0]) + (" " + Joined(argv[1..]))
  {
  }

  lemma {:induction false} ReadJoined(argv: seq<string>, done: seq<string>)
    ensures Tokenize(Joined(argv), Between, done) == Some(done + argv)
    decreases |argv|
  {
    if argv == [] {
      assert done + argv == done;
    } else if |argv| == 1 {
      ReadLast(argv[0], done);
      assert argv == [argv[0]];
    } else {
      JoinedCons(argv);
      ReadNext(argv[0], Joined(argv[1..]), done);
      ReadJoined(argv[1..], done + [argv[0]]);
      assert done + [argv[0]] + argv[1..] == done + argv;
    }
  }

  /** Every argv, including empty arguments and ones full of quotes, reaches the program unchanged. */
  lemma ShellSeesTheArgv(argv: seq<string>)
    ensures ShellWords(Joined(argv)) == Some(argv)
  {
    ReadJoined(argv, []);
    assert [] + argv == argv;
  }

  lemma ReadExec(tail: string)
    ensures Tokenize("exec" + tail, Between, []) == Tokenize(tail, Word("exec"), [])
  {
    var s, w := "exec" + tail, "xec";
    assert Ordinary('e') && Ordinary('x') && Ordinary('c');
    assert s[1..] == w + tail && "" + [s[0]] == "e";
    ReadPlain(w, tail, "e", []);
    assert "e" + w == "exec";
  }

  /** The last command of the script is exec with exactly the run argv. */
  lemma ScriptExecsTheArgv(argv: seq<string>)
    ensures ShellWords(ExecLine(argv)) == Some(["exec"] + argv)
  {
    var j := Joined(argv);
    ReadExec(" " + j);
    assert ExecLine(argv) == "exec" + (" " + j);
    ReadBlank(j, "exec", []);
    var done: seq<string> := [] + ["exec"];
    assert done == ["exec"];
    ReadJoined(argv, done);
  }

  /** Different argvs give different scripts. */
  lemma QuotingIsInjective(a: seq<string>, b: seq<string>)
    requires Joined(a) == Joined(b)
    ensures a == b
  {
    ShellSeesTheArgv(a);
    ShellSeesTheArgv(b);
  }
}
