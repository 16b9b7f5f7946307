/** Commands the panel hands to the shell (BitwardenModel.js), against the shell's own reading of them:
    words, backslash and single quotes as in sections 2.2 and 2.3 of the POSIX Shell Command Language. */
module Shell {
  import opened Arithmetic
  import opened Common

  // ---- Reading ----------------------------------------------------------------------------------

  /** Characters that stand for themselves in an unquoted word wherever they are. */
  predicate Plain(c: char) {
    || 'a' <= c <= 'z' || 'A' <= c <= 'Z' || '0' <= c <= '9'
    || c == '_' || c == '-' || c == '.' || c == '/' || c == '+' || c == ',' || c == ':' || c == '@' || c == '%'
  }

  predicate Blank(c: char) {
    c == ' ' || c == '\t'
  }

  predicate Digit(c: char) {
    '0' <= c <= '9'
  }

  /** A control operator, which ends a simple command. A redirection does not: words may follow it, and
      a number before it is its descriptor. In bash `&>` is one too. */
  predicate Ended(s: string) {
    && s != ""
    && (|| s[0] == '\n' || s[0] == ';' || s[0] == '|' || s[0] == ')'
        || (s[0] == '&' && !(|s| > 1 && s[1] == '>')))
  }

  function Finished(word: Option<string>): seq<string> {
    if word.Some? then [word.value] else []
  }

  function AfterDigits(s: string): (r: string)
    ensures |r| <= |s|
  {
    if s != "" && Digit(s[0]) then AfterDigits(s[1..]) else s
  }

  function AfterPlain(s: string): (r: string)
    ensures |r| <= |s|
  {
    if s != "" && Plain(s[0]) then AfterPlain(s[1..]) else s
  }

  function AfterBlanks(s: string): (r: string)
    ensures |r| <= |s|
  {
    if s != "" && Blank(s[0]) then AfterBlanks(s[1..]) else s
  }

  /** The end of a word. */
  predicate Breaks(s: string) {
    s == "" || Blank(s[0]) || Ended(s)
  }

  /** What follows a redirection at the beginning of a word: `>` or `<` after digits or none, and a plain
      file name or a descriptor after `&` (section 2.7). Others are not recognised. */
  function Redirection(s: string): (r: Option<string>)
    ensures r.Some? ==> |r.value| < |s| && Breaks(r.value)
  {
    var operator := AfterDigits(s);
    if operator == "" || (operator[0] != '>' && operator[0] != '<') then None else
    var after := operator[1..];
    var target := if after != "" && after[0] == '&' then after[1..] else AfterBlanks(after);
    var rest := AfterPlain(target);
    if |rest| < |target| && Breaks(rest) then Some(rest) else None
  }

  /** The words of a simple command and what follows it, its redirections left out. `word` is the one being
      read, if any, and `quoted` whether a single quote is open. A quote left open, a redirection that is
      not recognised, or anything the shell would expand, is no answer. */
  function Words(s: string, word: Option<string>, quoted: bool): Option<(seq<string>, string)>
    decreases |s|
  {
    var sofar := if word.Some? then word.value else "";
    if s == "" then
      if quoted then None else Some((Finished(word), ""))
    else if quoted then
      if s[0] == '\'' then Words(s[1..], Some(sofar), false) else Words(s[1..], Some(sofar + [s[0]]), true)
    else if s[0] == '\'' then
      Words(s[1..], Some(sofar), true)
    else if Ended(s) then
      Some((Finished(word), s))
    else if Blank(s[0]) then
      match Words(s[1..], None, false)
      case None => None
      case Some((words, rest)) => Some((Finished(word) + words, rest))
    else if word.None? && Redirection(s).Some? then
      Words(Redirection(s).value, None, false)
    else if s[0] == '\\' then
      if |s| < 2 then None
      else if s[1] == '\n' then Words(s[2..], word, false)
      else Words(s[2..], Some(sofar + [s[1]]), false)
    else if Plain(s[0]) then
      Words(s[1..], Some(sofar + [s[0]]), false)
    else
      None
  }

  function ReadCommand(s: string): Option<(seq<string>, string)> {
    Words(s, None, false)
  }

  // ---- Writing ----------------------------------------------------------------------------------

  /** Every single quote becomes a closed, an escaped and an opened one. */
  function Requoted(value: string): string {
    if value == "" then ""
    else (if value[0] == '\'' then ['\'', '\\', '\'', '\''] else [value[0]]) + Requoted(value[1..])
  }

  function ShellQuote(value: string): string {
    ['\''] + Requoted(value) + ['\'']
  }

  predicate SafeChar(c: char) {
    'a' <= c <= 'z' || 'A' <= c <= 'Z' || '0' <= c <= '9' || c == '_' || c == '-' || c == '.' || c == '/'
  }

  predicate Safe(arg: string) {
    arg != "" && forall i :: 0 <= i < |arg| ==> SafeChar(arg[i])
  }

  function Argument(arg: string): string {
    if Safe(arg) then arg else ShellQuote(arg)
  }

  /** The `bw` command line of an argument list. */
  function CommandLine(args: seq<string>): string {
    if args == [] then "bw" else CommandLine(args[..|args| - 1]) + [' '] + Argument(args[|args| - 1])
  }

  method BuildCommandLine(args: seq<string>) returns (inner: string)
    ensures inner == CommandLine(args)
  {
    hide Argument;
    inner := "bw";
    var i := 0;
    while i < |args|
      invariant i <= |args| && inner == CommandLine(args[..i])
    {
      assert args[..i + 1][..i] == args[..i];
      var arg := args[i];
      inner := inner + [' '];
      var text := WriteArgument(arg);
      inner := inner + text;
      i := i + 1;
    }
    assert args[..i] == args;
  }

  method WriteArgument(arg: string) returns (text: string)
    ensures text == Argument(arg)
  {
    if Safe(arg) {
      return arg;
    }
    return ShellQuote(arg);
  }

  function NestedScript(script: string): string {
    "bash -c " + ShellQuote(script)
  }

  // ---- One word at a time -----------------------------------------------------------------------

  function Sofar(word: Option<string>): string {
    if word.Some? then word.value else ""
  }

  lemma {:induction false} BodyReads(value: string, rest: string, word: string)
    ensures Words(Requoted(value) + rest, Some(word), true) == Words(rest, Some(word + value), true)
    decreases |value|
  {
    var s := Requoted(value) + rest;
    if value == "" {
      assert s == rest && word + value == word;
    } else {
      var c, tail := value[0], value[1..];
      var next := Requoted(tail) + rest;
      BodyReads(tail, rest, word + [c]);
      assert word + [c] + tail == word + value;
      if c == '\'' {
        assert s == ['\'', '\\', '\'', '\''] + next;
        EscapedQuoteReads(next, word);
      } else {
        assert s == [c] + next && s[1..] == next;
      }
    }
  }

  lemma EscapedQuoteReads(next: string, word: string)
    ensures Words(['\'', '\\', '\'', '\''] + next, Some(word), true) == Words(next, Some(word + ['\'']), true)
  {
    var s := ['\'', '\\', '\'', '\''] + next;
    var s1 := ['\\', '\'', '\''] + next;
    var s3 := ['\''] + next;
    assert s[1..] == s1 && s1[2..] == s3 && s3[1..] == next;
    assert Words(s, Some(word), true) == Words(s1, Some(word), false);
    assert Words(s1, Some(word), false) == Words(s3, Some(word + ['\'']), false);
    assert Words(s3, Some(word + ['\'']), false) == Words(next, Some(word + ['\'']), true);
  }

  /** A quoted value joins the word as it is, and leaves the shell where it was. */
  lemma QuoteReads(value: string, rest: string, word: Option<string>)
    ensures Words(ShellQuote(value) + rest, word, false) == Words(rest, Some(Sofar(word) + value), false)
  {
    var s := ShellQuote(value) + rest;
    var closed := ['\''] + rest;
    assert s[1..] == Requoted(value) + closed && closed[1..] == rest;
    BodyReads(value, closed, Sofar(word));
    assert Words(s, word, false) == Words(Requoted(value) + closed, Some(Sofar(word)), true);
  }

  lemma {:induction false} NoOperator(text: string, rest: string)
    requires (forall i :: 0 <= i < |text| ==> Plain(text[i])) && Breaks(rest)
    ensures var s := AfterDigits(text + rest); s == "" || (s[0] != '>' && s[0] != '<')
    decreases |text|
  {
    var s := text + rest;
    if text == "" {
      assert s == rest;
      assert rest != "" ==> !Digit(rest[0]);
      assert AfterDigits(rest) == rest;
    } else {
      assert s[1..] == text[1..] + rest;
      NoOperator(text[1..], rest);
    }
  }

  /** A plain word is no redirection, where the word ends after it. */
  lemma PlainIsNoRedirection(text: string, rest: string)
    requires (forall i :: 0 <= i < |text| ==> Plain(text[i])) && Breaks(rest)
    ensures Redirection(text + rest).None?
  {
    NoOperator(text, rest);
    hide AfterDigits;
  }

  lemma {:induction false} PlainReads(text: string, rest: string, word: Option<string>)
    requires text != "" && (forall i :: 0 <= i < |text| ==> Plain(text[i])) && (word.Some? || Breaks(rest))
    ensures Words(text + rest, word, false) == Words(rest, Some(Sofar(word) + text), false)
    decreases |text|
  {
    var s := text + rest;
    var c := text[0];
    assert s[1..] == text[1..] + rest;
    assert !Ended(s) && !Blank(c) && c != '\'' && c != '\\';
    if word.None? {
      PlainIsNoRedirection(text, rest);
    }
    hide Redirection;
    if |text| == 1 {
      assert text[1..] + rest == rest && text == [c];
    } else {
      PlainReads(text[1..], rest, Some(Sofar(word) + [c]));
      assert Sofar(word) + [c] + text[1..] == Sofar(word) + text;
    }
  }

  /** A blank ends the word. */
  lemma BlankReads(rest: string, word: string)
    requires Words(rest, None, false).Some?
    ensures Words([' '] + rest, Some(word), false) ==
            Some(([word] + Words(rest, None, false).value.0, Words(rest, None, false).value.1))
  {
    assert ([' '] + rest)[1..] == rest;
  }

  lemma ArgumentReads(arg: string, rest: string)
    requires Breaks(rest)
    ensures Words(Argument(arg) + rest, None, false) == Words(rest, Some(arg), false)
  {
    assert "" + arg == arg;
    if Safe(arg) {
      PlainReads(arg, rest, None);
    } else {
      QuoteReads(arg, rest, None);
    }
  }

  // ---- The whole command ------------------------------------------------------------------------

  /** What may follow the command in its script: redirections, then a control operator or the end. */
  predicate Ends(tail: string)
    decreases |tail|
  {
    || tail == "" || Ended(tail)
    || (Blank(tail[0]) && Ends(if Redirection(tail[1..]).Some? then Redirection(tail[1..]).value else tail[1..]))
  }

  /** Where the next command begins. */
  function Behind(tail: string): string
    decreases |tail|
  {
    if tail == "" || !Blank(tail[0]) then tail
    else Behind(if Redirection(tail[1..]).Some? then Redirection(tail[1..]).value else tail[1..])
  }

  lemma {:induction false} EndReads(tail: string, word: Option<string>)
    requires Ends(tail)
    ensures Words(tail, word, false) == Some((Finished(word), Behind(tail)))
    decreases |tail|
  {
    hide Redirection;
    if tail != "" && !Ended(tail) {
      var s := tail[1..];
      if Redirection(s).Some? {
        EndReads(Redirection(s).value, None);
        RedirectionReads(s);
      } else {
        EndReads(s, None);
      }
      assert Finished(word) + [] == Finished(word);
    }
  }

  /** A redirection adds no word. */
  lemma RedirectionReads(s: string)
    requires Redirection(s).Some?
    ensures Words(s, None, false) == Words(Redirection(s).value, None, false)
  {
    assert s[0] == '<' || s[0] == '>' || Digit(s[0]);
    hide Redirection;
  }

  function Arguments(args: seq<string>): string {
    if args == [] then "" else [' '] + Argument(args[0]) + Arguments(args[1..])
  }

  lemma {:induction false} ArgumentsRead(args: seq<string>, tail: string, word: string)
    requires Ends(tail)
    ensures Words(Arguments(args) + tail, Some(word), false) == Some(([word] + args, Behind(tail)))
    decreases |args|
  {
    hide Argument;
    if args == [] {
      assert Arguments(args) + tail == tail && [word] + args == [word];
      EndReads(tail, Some(word));
    } else {
      hide Words;
      var rest := Arguments(args[1..]) + tail;
      assert Arguments(args) + tail == [' '] + (Argument(args[0]) + rest);
      ArgumentReads(args[0], rest);
      ArgumentsRead(args[1..], tail, args[0]);
      BlankReads(Argument(args[0]) + rest, word);
      assert [word] + ([args[0]] + args[1..]) == [word] + args;
    }
  }

  lemma {:induction false} CommandLineIs(args: seq<string>)
    ensures CommandLine(args) == "bw" + Arguments(args)
    decreases |args|
  {
    hide Argument;
    if args != [] {
      CommandLineIs(args[..|args| - 1]);
      ArgumentsAppend(args[..|args| - 1], args[|args| - 1]);
      assert args[..|args| - 1] + [args[|args| - 1]] == args;
    }
  }

  lemma {:induction false} ArgumentsAppend(args: seq<string>, last: string)
    ensures Arguments(args + [last]) == Arguments(args) + [' '] + Argument(last)
    decreases |args|
  {
    hide Argument;
    if args == [] {
      assert (args + [last])[1..] == [];
    } else {
      ArgumentsAppend(args[1..], last);
      assert (args + [last])[1..] == args[1..] + [last];
    }
  }

  lemma ArgumentsBreak(args: seq<string>, tail: string)
    requires Ends(tail)
    ensures Breaks(Arguments(args) + tail)
  {
    hide Argument, Redirection;
    assert args == [] ==> Arguments(args) + tail == tail;
  }

  /** For any argument list, empty arguments included, the shell reads `bw` and exactly those arguments,
      whatever redirections, control operator or end of the script follow. */
  lemma ShellReadsTheArguments(args: seq<string>, tail: string)
    requires Ends(tail)
    ensures ReadCommand(CommandLine(args) + tail) == Some((["bw"] + args, Behind(tail)))
  {
    hide Words, Arguments, CommandLine, Redirection, Ends, Behind, Breaks, ReadCommand;
    var rest := Arguments(args) + tail;
    ArgumentsBreak(args, tail);
    ArgumentsRead(args, tail, "bw");
    CommandLineIs(args);
    assert CommandLine(args) + tail == "bw" + rest;
    FirstWord("bw", rest);
  }

  lemma FirstWord(word: string, rest: string)
    requires word != "" && (forall i :: 0 <= i < |word| ==> Plain(word[i])) && Breaks(rest)
    ensures ReadCommand(word + rest) == Words(rest, Some(word), false)
  {
    hide Words, Breaks;
    PlainReads(word, rest, None);
    assert "" + word == word;
  }

  const SUFFIX: string := "__rc=$?\ncase \"$__rc\" in 141) __rc=0 ;; esac\nexit \"$__rc\""

  /** What follows the command in a capped script: a limit on its output, if any, and the exit code. */
  function Capped(maxStdout: nat): string {
    (if maxStdout > 0 then " | head -c " + Decimal(maxStdout) else "") + (['\n'] + SUFFIX)
  }

  /** The limit on a command's errors, in front of everything else. */
  function ErrorLimit(maxStderr: nat): string {
    if maxStderr > 0 then "exec 2> >(head -c " + Decimal(maxStderr) + " >&2); " else ""
  }

  function CappedScript(args: seq<string>, maxStdout: nat, maxStderr: nat): string {
    ErrorLimit(maxStderr) + ("set -o pipefail; " + (CommandLine(args) + Capped(maxStdout)))
  }

  lemma CappedEnds(maxStdout: nat)
    ensures Ends(Capped(maxStdout))
  {
    hide Decimal;
    var tail := Capped(maxStdout);
    if maxStdout > 0 {
      assert tail[0] == ' ' && tail[1] == '|';
      assert tail[1..][0] == '|';
    } else {
      assert tail[0] == '\n';
    }
  }

  /** In the script, behind an error limit that is the same for all arguments, the first command sets
      `pipefail` and the next one is `bw` with exactly the arguments. */
  lemma ScriptRunsTheArguments(args: seq<string>, maxStdout: nat, maxStderr: nat)
    ensures ErrorLimit(maxStderr) <= CappedScript(args, maxStdout, maxStderr)
    ensures var first := ReadCommand(CappedScript(args, maxStdout, maxStderr)[|ErrorLimit(maxStderr)|..]);
            && first.Some? && first.value.0 == ["set", "-o", "pipefail"]
            && first.value.1 != "" && first.value.1[0] == ';'
            && ReadCommand(first.value.1[1..]) == Some((["bw"] + args, Behind(Capped(maxStdout))))
  {
    hide Words, CommandLine, Capped, ErrorLimit;
    var rest := CommandLine(args) + Capped(maxStdout);
    CappedEnds(maxStdout);
    ShellReadsTheArguments(args, Capped(maxStdout));
    var after := "; " + rest;
    assert after[0] == ';' && after[1..] == [' '] + rest;
    PipefailReads(after);
    assert CappedScript(args, maxStdout, maxStderr)[|ErrorLimit(maxStderr)|..] == "set -o pipefail" + after;
    LeadingBlank(rest);
  }

  lemma PlainWordReads(word: string, rest: string)
    requires word != "" && (forall i :: 0 <= i < |word| ==> Plain(word[i])) && ReadCommand(rest).Some?
    ensures ReadCommand(word + ([' '] + rest)) == Some(([word] + ReadCommand(rest).value.0, ReadCommand(rest).value.1))
  {
    hide Words;
    PlainReads(word, [' '] + rest, None);
    assert "" + word == word;
    BlankReads(rest, word);
  }

  lemma LastWordReads(word: string, after: string)
    requires word != "" && (forall i :: 0 <= i < |word| ==> Plain(word[i])) && after != "" && after[0] == ';'
    ensures ReadCommand(word + after) == Some(([word], after))
  {
    assert Ends(after) && Behind(after) == after;
    hide Words, Ends, Behind;
    EndReads(after, Some(word));
    PlainReads(word, after, None);
    assert "" + word == word;
  }

  lemma PipefailReads(after: string)
    requires after != "" && after[0] == ';'
    ensures ReadCommand("set -o pipefail" + after) == Some((["set", "-o", "pipefail"], after))
  {
    hide ReadCommand;
    LastWordReads("pipefail", after);
    var last := "pipefail" + after;
    PlainWordReads("-o", last);
    var option := "-o" + ([' '] + last);
    PlainWordReads("set", option);
    assert "set -o pipefail" + after == "set" + ([' '] + option);
    assert ["set"] + (["-o"] + ["pipefail"]) == ["set", "-o", "pipefail"];
  }

  lemma LeadingBlank(rest: string)
    requires ReadCommand(rest).Some?
    ensures ReadCommand([' '] + rest) == ReadCommand(rest)
  {
    assert ([' '] + rest)[1..] == rest;
    var words := ReadCommand(rest).value.0;
    assert [] + words == words;
  }

  /** So two argument lists never make the same command. */
  lemma CommandLineInjective(a: seq<string>, b: seq<string>)
    requires CommandLine(a) == CommandLine(b)
    ensures a == b
  {
    ShellReadsTheArguments(a, "");
    ShellReadsTheArguments(b, "");
    assert (["bw"] + a)[1..] == a && (["bw"] + b)[1..] == b;
  }

  /** A redirection needs a blank before it: the shell takes the 2 for its descriptor, and not for an
      argument. */
  lemma DescriptorIsNoArgument()
    ensures !Ends(">x") && ReadCommand(CommandLine(["2"]) + ">x") == Some((["bw"], ""))
  {
    var args, s, tail := ["2"], "2" + ">x", ">x";
    assert tail[0] == '>' && !Ended(tail);
    assert args[..0] == [] && CommandLine([]) == "bw" && Safe("2");
    assert CommandLine(args) + tail == "bw" + ([' '] + s);
    assert s[1..] == tail && tail[1..] == "x" && "x"[1..] == "";
    assert AfterDigits(s) == tail && AfterPlain("x") == "";
    RedirectionReads(s);
    assert Words("", None, false) == Some(([], ""));
    hide Words, Redirection;
    PlainReads("bw", [' '] + s, None);
    BlankReads(s, "bw");
    assert "" + "bw" == "bw" && ["bw"] + [] == ["bw"];
  }

  // ---- Scripts inside scripts -------------------------------------------------------------------

  lemma NestedReads(script: string, tail: string)
    requires Ends(tail)
    ensures ReadCommand(NestedScript(script) + tail) == Some((["bash", "-c", script], Behind(tail)))
  {
    hide Words, ShellQuote;
    var quoted := ShellQuote(script) + tail;
    QuoteReads(script, tail, None);
    EndReads(tail, Some(script));
    assert "" + script == script;
    assert Words(quoted, None, false).value.0 == [script];
    var option := [' '] + quoted;
    BlankReads(quoted, "-c");
    PlainReads("-c", option, None);
    assert "" + "-c" == "-c";
    assert Words("-c" + option, None, false).value.0 == ["-c"] + [script];
    var after := [' '] + ("-c" + option);
    BlankReads("-c" + option, "bash");
    PlainReads("bash", after, None);
    assert "" + "bash" == "bash";
    assert "bash -c " + ShellQuote(script) + tail == "bash" + after;
    assert ["bash"] + (["-c"] + [script]) == ["bash", "-c", script];
  }

  lemma {:induction false} PlainEnds(text: string, rest: string)
    requires (forall i :: 0 <= i < |text| ==> Plain(text[i])) && Breaks(rest)
    ensures AfterPlain(text + rest) == rest
    decreases |text|
  {
    if text == "" {
      assert text + rest == rest;
    } else {
      assert (text + rest)[1..] == text[1..] + rest;
      PlainEnds(text[1..], rest);
    }
  }

  /** Output to a file, after a blank, leaves the end where it is. */
  lemma RedirectedEnds(file: string, rest: string)
    requires file != "" && (forall i :: 0 <= i < |file| ==> Plain(file[i])) && Ends(rest)
    ensures Ends([' ', '>'] + file + rest) && Behind([' ', '>'] + file + rest) == Behind(rest)
  {
    assert Breaks(rest);
    PlainEnds(file, rest);
    var tail, s := [' ', '>'] + file + rest, ['>'] + (file + rest);
    assert tail[1..] == s && s[1..] == file + rest;
    assert AfterDigits(s) == s && AfterBlanks(file + rest) == file + rest;
    assert Redirection(s) == Some(rest);
    hide Redirection;
  }

  const QUIET: string := " >/dev/null"

  /** So a nested script is read with its output thrown away. */
  lemma QuietNestedReads(script: string, rest: string)
    requires Ends(rest)
    ensures ReadCommand(NestedScript(script) + (QUIET + rest)) == Some((["bash", "-c", script], Behind(rest)))
  {
    hide Words, Ends, Behind, NestedScript, Redirection;
    var file := "/dev/null";
    RedirectedEnds(file, rest);
    assert QUIET + rest == [' ', '>'] + file + rest;
    NestedReads(script, QUIET + rest);
  }

  /** A script wrapped in `n` others. */
  function Nest(n: nat, script: string): string {
    if n == 0 then script else NestedScript(Nest(n - 1, script))
  }

  /** What `n` shells, each running the script it was given, come to. */
  function Unnest(n: nat, s: string): Option<string> {
    if n == 0 then Some(s) else
    match ReadCommand(s)
    case None => None
    case Some((words, _)) => if |words| == 3 && words[..2] == ["bash", "-c"] then Unnest(n - 1, words[2]) else None
  }

  /** Quoting a script inside a script, to any depth, recovers the innermost one. */
  lemma {:induction false} NestingRoundTrip(n: nat, script: string)
    ensures Unnest(n, Nest(n, script)) == Some(script)
    decreases n
  {
    if n > 0 {
      NestingRoundTrip(n - 1, script);
      var inner := Nest(n - 1, script);
      NestedReads(inner, "");
      assert NestedScript(inner) + "" == NestedScript(inner);
      hide NestedScript, Words;
      assert ["bash", "-c", inner][..2] == ["bash", "-c"];
    }
  }
}
