/** Running `wg-quick` with privilege: an argv becomes a shell line, and on macOS
    that line becomes an AppleScript string. Both readers give it back. */
module Tunnel {
  import opened Text

  /** `str::replace` of one character. */
  function Replace(s: string, c: char, with: string): (t: string)
  {
    if s == "" then "" else (if s[0] == c then with else [s[0]]) + Replace(s[1..], c, with)
  }

  function ShellQuote(argument: string): (s: string)
  {
    "'" + Replace(argument, '\'', "'\\''") + "'"
  }

  function AppleScriptQuote(value: string): (s: string)
  {
    Replace(Replace(value, '\\', "\\\\"), '"', "\\\"")
  }

  datatype Step = Step(program: string, args: seq<string>)
  {
    function Argv(): (words: seq<string>) {
      [program] + args
    }

    function Shell(): (s: string) {
      Join(Quoted(Argv()), " ")
    }
  }

  function Quoted(words: seq<string>): (qs: seq<string>)
    ensures |qs| == |words|
  {
    if words == [] then [] else [ShellQuote(words[0])] + Quoted(words[1..])
  }

  function Shells(steps: seq<Step>): (ls: seq<string>)
    ensures |ls| == |steps|
  {
    if steps == [] then [] else [steps[0].Shell()] + Shells(steps[1..])
  }

  function Script(steps: seq<Step>, path: string): (s: string)
  {
    Join(["export PATH=" + ShellQuote(path)] + Shells(steps), " && ")
  }

  datatype Privilege = Direct | Sudo | Graphical(escalator: string) | Unavailable

  /** `Path::file_name`: the last component, when it names something. */
  function FileName(path: string): (name: Option<string>)
  {
    LastName(SplitOn(path, '/'))
  }

  function LastName(parts: seq<string>): (name: Option<string>)
  {
    if parts == [] then None
    else
      var last := parts[|parts| - 1];
      if last == "" || last == "." then LastName(parts[..|parts| - 1])
      else if last == ".." then None
      else Some(last)
  }

  const APPLE_HEAD := "do shell script \""
  const APPLE_TAIL := " with administrator privileges"

  /** What is launched, and with which arguments. */
  function Plan(steps: seq<Step>, path: string, privilege: Privilege, hint: string): (r: Result<(string, seq<string>), string>)
  {
    var script := Script(steps, path);
    match privilege
    case Direct => Ok(("/bin/sh", ["-c", script]))
    case Sudo => Ok(("sudo", ["/bin/sh", "-c", script]))
    case Graphical(escalator) =>
      if FileName(escalator) == Some("osascript") then
        Ok((escalator, ["-e", APPLE_HEAD + AppleScriptQuote(script) + "\"" + APPLE_TAIL]))
      else
        Ok((escalator, ["/bin/sh", "-c", script]))
    case Unavailable => Err(hint)
  }

  // ---- The AppleScript reader ----

  /** Reads a string literal from just after its opening quote: the text, and
      what follows the closing quote. */
  function ReadAppleString(s: string): (r: Option<(string, string)>)
  {
    if s == "" then None
    else if s[0] == '"' then Some(("", s[1..]))
    else if s[0] == '\\' then
      if |s| == 1 then None
      else
        var c := if s[1] == 'n' then Some('\n') else if s[1] == 'r' then Some('\r')
                 else if s[1] == 't' then Some('\t')
                 else if s[1] == '\\' || s[1] == '"' then Some(s[1]) else None;
        match (c, ReadAppleString(s[2..]))
        case (Some(c), Some((text, rest))) => Some(([c] + text, rest))
        case _ => None
    else match ReadAppleString(s[1..])
      case Some((text, rest)) => Some(([s[0]] + text, rest))
      case None => None
  }

  lemma {:induction false} ReplaceAdds(a: string, b: string, c: char, with: string)
    ensures Replace(a + b, c, with) == Replace(a, c, with) + Replace(b, c, with)
  {
    if a == "" {
      assert a + b == b;
    } else {
      assert (a + b)[1..] == a[1..] + b;
      ReplaceAdds(a[1..], b, c, with);
    }
  }

  function AppleEscape(c: char): (s: string)
  {
    if c == '\\' then "\\\\" else if c == '"' then "\\\"" else [c]
  }

  lemma AppleQuoteHead(v: string)
    requires v != ""
    ensures AppleScriptQuote(v) == AppleEscape(v[0]) + AppleScriptQuote(v[1..])
  {
    var head := if v[0] == '\\' then "\\\\" else [v[0]];
    assert Replace(v, '\\', "\\\\") == head + Replace(v[1..], '\\', "\\\\");
    ReplaceAdds(head, Replace(v[1..], '\\', "\\\\"), '"', "\\\"");
    assert head[1..] == if v[0] == '\\' then "\\" else "";
    assert Replace(head, '"', "\\\"") == AppleEscape(v[0]);
  }

  lemma AppleReadsEscape(c: char, tail: string)
    requires ReadAppleString(tail).Some?
    ensures var (text, rest) := ReadAppleString(tail).value;
            ReadAppleString(AppleEscape(c) + tail) == Some(([c] + text, rest))
  {
    var s := AppleEscape(c) + tail;
    assert s[|AppleEscape(c)|..] == tail;
  }

  lemma {:induction false} AppleReadsBack(v: string, rest: string)
    ensures ReadAppleString(AppleScriptQuote(v) + "\"" + rest) == Some((v, rest))
  {
    if v == "" {
      assert (AppleScriptQuote(v) + "\"" + rest)[1..] == rest;
    } else {
      AppleQuoteHead(v);
      AppleReadsBack(v[1..], rest);
      var tail := AppleScriptQuote(v[1..]) + "\"" + rest;
      Assoc(AppleEscape(v[0]), AppleScriptQuote(v[1..]), "\"");
      Assoc(AppleEscape(v[0]), AppleScriptQuote(v[1..]) + "\"", rest);
      AppleReadsEscape(v[0], tail);
      assert [v[0]] + v[1..] == v;
    }
  }

  // ---- The shell reader ----

  /** A word after quote removal (POSIX.1-2017 Shell Command Language, 2.6.7).
      `lead` is its text up to the first quoted character, which is what the
      grammar looks at to tell an assignment; `quoted` is false only for a word
      in which nothing was quoted. */
  datatype Word = Word(text: string, lead: string, quoted: bool)

  datatype Token = WordToken(word: Word) | AndIf

  const EMPTY_WORD := Word("", "", false)

  function AddBare(cur: Option<Word>, c: char): (w: Option<Word>)
  {
    var w := if cur.Some? then cur.value else EMPTY_WORD;
    Some(Word(w.text + [c], if w.quoted then w.lead else w.lead + [c], w.quoted))
  }

  function AddQuoted(cur: Option<Word>, t: string): (w: Option<Word>)
  {
    var w := if cur.Some? then cur.value else EMPTY_WORD;
    Some(Word(w.text + t, w.lead, true))
  }

  function Emit(cur: Option<Word>): (ts: seq<Token>)
  {
    if cur.Some? then [WordToken(cur.value)] else []
  }

  /** Characters that mean something to the shell outside quotes; reading stops
      at one, except for quoting, blanks and `&&`. */
  predicate Special(c: char)
  {
    c == '|' || c == ';' || c == '<' || c == '>' || c == '(' || c == ')' || c == '$' || c == '`' || c == '"'
    || c == '*' || c == '?' || c == '[' || c == ']' || c == '#' || c == '~' || c == '{' || c == '}' || c == '!' || c == '\n'
  }

  /** Token recognition with the escape character and single quotes (2.2.1,
      2.2.2, 2.3). `None` when the text holds anything but words and `&&`. */
  function Scan(s: string, single: bool, cur: Option<Word>): (ts: Option<seq<Token>>)
    decreases |s|
  {
    if s == "" then
      if single then None else Some(Emit(cur))
    else if single then
      if s[0] == '\'' then Scan(s[1..], false, cur)
      else Scan(s[1..], true, AddQuoted(cur, [s[0]]))
    else if s[0] == '\'' then Scan(s[1..], true, AddQuoted(cur, ""))
    else if s[0] == '\\' then
      if |s| == 1 then None
      else if s[1] == '\n' then Scan(s[2..], false, cur)
      else Scan(s[2..], false, AddQuoted(cur, [s[1]]))
    else if s[0] == ' ' || s[0] == '\t' then Prepend(Emit(cur), Scan(s[1..], false, None))
    else if s[0] == '&' then
      if |s| > 1 && s[1] == '&' then Prepend(Emit(cur) + [AndIf], Scan(s[2..], false, None)) else None
    else if Special(s[0]) then None
    else Scan(s[1..], false, AddBare(cur, s[0]))
  }

  function Prepend<T>(a: seq<T>, b: Option<seq<T>>): (r: Option<seq<T>>)
  {
    match b
    case Some(ts) => Some(a + ts)
    case None => None
  }

  /** Reserved words (2.4), recognised only when nothing in them is quoted. */
  const RESERVED: set<string> := {"if", "then", "else", "elif", "fi", "do", "done", "case", "esac", "while", "until", "for", "in"}

  /** A word that can be the name of a simple command: not a reserved word and
      not an assignment. */
  predicate CommandName(w: Word)
  {
    (w.quoted || w.text !in RESERVED) && '=' !in w.lead
  }

  /** An AND-list (2.9.3): non-empty simple commands between `&&`s. */
  function AndList(ts: seq<Token>, cur: seq<Word>): (commands: Option<seq<seq<string>>>)
    decreases |ts|
  {
    if ts != [] && ts[0].WordToken? then AndList(ts[1..], cur + [ts[0].word])
    else if cur == [] || !CommandName(cur[0]) then None
    else if ts == [] then Some([Texts(cur)])
    else Prepend([Texts(cur)], AndList(ts[1..], []))
  }

  function Texts(ws: seq<Word>): (ts: seq<string>)
    ensures |ts| == |ws|
  {
    if ws == [] then [] else [ws[0].text] + Texts(ws[1..])
  }

  function ReadScript(s: string): (commands: Option<seq<seq<string>>>)
  {
    match Scan(s, false, None)
    case Some(ts) => AndList(ts, [])
    case None => None
  }

  // ---- A quoted word reads back ----

  lemma {:induction false} ScanInQuotes(a: string, rest: string, cur: Option<Word>)
    requires cur.Some? && cur.value.quoted
    ensures Scan(Replace(a, '\'', "'\\''") + "'" + rest, true, cur)
            == Scan(rest, false, AddQuoted(cur, a))
    decreases |a|
  {
    var s := Replace(a, '\'', "'\\''") + "'" + rest;
    if a == "" {
      assert s[1..] == rest;
      assert AddQuoted(cur, a) == cur by { assert cur.value.text + "" == cur.value.text; }
    } else {
      var tail := Replace(a[1..], '\'', "'\\''") + "'" + rest;
      var cur' := AddQuoted(cur, [a[0]]);
      assert AddQuoted(cur', a[1..]) == AddQuoted(cur, a) by {
        assert cur.value.text + [a[0]] + a[1..] == cur.value.text + a;
      }
      ScanInQuotes(a[1..], rest, cur');
      if a[0] == '\'' {
        assert s == "'\\''" + tail;
        ScanSplice(tail, cur);
      } else {
        assert s == [a[0]] + tail;
        assert s[1..] == tail;
      }
    }
  }

  /** Close, an escaped quote, open again: one literal quote. */
  lemma ScanSplice(tail: string, cur: Option<Word>)
    requires cur.Some? && cur.value.quoted
    ensures Scan("'\\''" + tail, true, cur) == Scan(tail, true, AddQuoted(cur, "'"))
  {
    var s := "'\\''" + tail;
    var s1, s3 := "\\''" + tail, "'" + tail;
    assert s[1..] == s1 && s1[2..] == s3 && s3[1..] == tail;
    var cur' := AddQuoted(cur, ['\'']);
    assert Scan(s, true, cur) == Scan(s1, false, cur);
    assert Scan(s1, false, cur) == Scan(s3, false, cur');
    assert AddQuoted(cur', "") == cur' by { assert cur'.value.text + "" == cur'.value.text; }
  }

  lemma ScanQuoted(a: string, rest: string, cur: Option<Word>)
    ensures Scan(ShellQuote(a) + rest, false, cur) == Scan(rest, false, AddQuoted(cur, a))
  {
    var s := ShellQuote(a) + rest;
    var body := Replace(a, '\'', "'\\''") + "'" + rest;
    assert s[1..] == body;
    var cur' := AddQuoted(cur, "");
    ScanInQuotes(a, rest, cur');
    assert AddQuoted(cur', a) == AddQuoted(cur, a) by {
      var w := if cur.Some? then cur.value else EMPTY_WORD;
      assert w.text + "" + a == w.text + a;
    }
  }

  function QuotedTokens(words: seq<string>): (ts: seq<Token>)
  {
    if words == [] then [] else [WordToken(Word(words[0], "", true))] + QuotedTokens(words[1..])
  }

  /** A rest that ends the word before it. */
  predicate EndsWord(rest: string)
  {
    rest == "" || rest[0] == ' '
  }

  lemma EmitAtEnd(cur: Option<Word>, rest: string)
    requires EndsWord(rest)
    ensures Scan(rest, false, cur) == Prepend(Emit(cur), Scan(rest, false, None))
  {
    if rest == "" {
      assert Emit(cur) + [] == Emit(cur);
    } else {
      var tail := Scan(rest[1..], false, None);
      assert Scan(rest, false, None) == Prepend([], tail);
      assert tail.Some? ==> [] + tail.value == tail.value;
    }
  }

  lemma ScanOneWord(w: string, rest: string)
    requires EndsWord(rest)
    ensures Scan(ShellQuote(w) + rest, false, None) == Prepend([WordToken(Word(w, "", true))], Scan(rest, false, None))
  {
    var tok := Some(Word(w, "", true));
    assert AddQuoted(None, w) == tok by { assert "" + w == w; }
    ScanQuoted(w, rest, None);
    EmitAtEnd(tok, rest);
  }

  lemma PrependAdds<T>(a: seq<T>, b: seq<T>, c: Option<seq<T>>)
    ensures Prepend(a, Prepend(b, c)) == Prepend(a + b, c)
  {
    if c.Some? {
      Assoc(a, b, c.value);
    }
  }

  lemma {:induction false} ScanWords(words: seq<string>, rest: string)
    requires words != [] && EndsWord(rest)
    ensures Scan(Join(Quoted(words), " ") + rest, false, None)
            == Prepend(QuotedTokens(words), Scan(rest, false, None))
    decreases |words|
  {
    var first := [WordToken(Word(words[0], "", true))];
    if |words| == 1 {
      ScanOneWord(words[0], rest);
      assert QuotedTokens(words) == first;
    } else {
      var list := Join(Quoted(words[1..]), " ");
      assert Quoted(words) == [ShellQuote(words[0])] + Quoted(words[1..]);
      JoinCons(ShellQuote(words[0]), Quoted(words[1..]), " ");
      Assoc(ShellQuote(words[0]) + " ", list, rest);
      Assoc(ShellQuote(words[0]), " ", list + rest);
      ScanOneWord(words[0], " " + (list + rest));
      assert Scan(" " + (list + rest), false, None) == Scan(list + rest, false, None) by {
        assert (" " + (list + rest))[1..] == list + rest;
        PrependNothing(Scan(list + rest, false, None));
      }
      ScanWords(words[1..], rest);
      PrependAdds(first, QuotedTokens(words[1..]), Scan(rest, false, None));
    }
  }

  // ---- The whole script reads back ----

  function StepTokens(steps: seq<Step>): (ts: seq<Token>)
  {
    if steps == [] then [] else [AndIf] + QuotedTokens(steps[0].Argv()) + StepTokens(steps[1..])
  }

  lemma ScanSpace(tail: string, cur: Option<Word>)
    ensures Scan(" " + tail, false, cur) == Prepend(Emit(cur), Scan(tail, false, None))
  {
    assert (" " + tail)[1..] == tail;
  }

  lemma ScanAmpersands(tail: string)
    ensures Scan("&&" + tail, false, None) == Prepend([AndIf], Scan(tail, false, None))
  {
    assert ("&&" + tail)[2..] == tail;
    assert Emit(None) + [AndIf] == [AndIf];
  }

  lemma ScanAndIf(tail: string)
    ensures Scan(" && " + tail, false, None) == Prepend([AndIf], Scan(tail, false, None))
  {
    assert " && " + tail == " " + ("&&" + (" " + tail));
    ScanSpace("&&" + (" " + tail), None);
    ScanAmpersands(" " + tail);
    ScanSpace(tail, None);
    PrependNothing(Scan(tail, false, None));
    PrependNothing(Scan("&&" + (" " + tail), false, None));
  }

  lemma PrependNothing(ts: Option<seq<Token>>)
    ensures Prepend(Emit(None), ts) == ts
  {
    assert ts.Some? ==> [] + ts.value == ts.value;
  }

  /** Everything after the export: each step behind its `&&`. */
  function AndSteps(steps: seq<Step>): (s: string)
  {
    if steps == [] then "" else " && " + (steps[0].Shell() + AndSteps(steps[1..]))
  }

  lemma {:induction false} ScriptShape(head: string, steps: seq<Step>)
    ensures Join([head] + Shells(steps), " && ") == head + AndSteps(steps)
    decreases |steps|
  {
    var parts := [head] + Shells(steps);
    if steps == [] {
      assert parts == [head];
    } else {
      assert parts[1..] == [steps[0].Shell()] + Shells(steps[1..]);
      ScriptShape(steps[0].Shell(), steps[1..]);
    }
  }

  lemma {:induction false} ScanSteps(steps: seq<Step>)
    ensures Scan(AndSteps(steps), false, None) == Some(StepTokens(steps))
    decreases |steps|
  {
    if steps == [] {
    } else {
      var rest := AndSteps(steps[1..]);
      ScanAndIf(steps[0].Shell() + rest);
      ScanWords(steps[0].Argv(), rest);
      ScanSteps(steps[1..]);
      assert [AndIf] + (QuotedTokens(steps[0].Argv()) + StepTokens(steps[1..])) == StepTokens(steps);
    }
  }

  /** Characters the reader adds to a word as they stand. */
  predicate Bare(c: char)
  {
    c != '\'' && c != '\\' && c != ' ' && c != '\t' && c != '&' && !Special(c)
  }

  lemma {:induction false} ScanBare(w: string, rest: string, cur: Option<Word>)
    requires w != "" && (forall c | c in w :: Bare(c)) && (cur.Some? ==> !cur.value.quoted)
    ensures var start := if cur.Some? then cur.value else EMPTY_WORD;
            Scan(w + rest, false, cur) == Scan(rest, false, Some(Word(start.text + w, start.lead + w, false)))
    decreases |w|
  {
    var start := if cur.Some? then cur.value else EMPTY_WORD;
    assert w[0] in w;
    assert (w + rest)[1..] == w[1..] + rest;
    if |w| == 1 {
      assert w == [w[0]];
      assert w[1..] + rest == rest;
    } else {
      ScanBare(w[1..], rest, AddBare(cur, w[0]));
      assert start.text + [w[0]] + w[1..] == start.text + w;
      assert start.lead + [w[0]] + w[1..] == start.lead + w;
    }
  }

  const EXPORT_WORD := Word("export", "export", false)

  function PathWord(path: string): (w: Word)
  {
    Word("PATH=" + path, "PATH=", true)
  }

  lemma ScanBareWord(w: string, tail: string)
    requires w != "" && forall c | c in w :: Bare(c)
    ensures Scan(w + (" " + tail), false, None) == Prepend([WordToken(Word(w, w, false))], Scan(tail, false, None))
  {
    ScanBare(w, " " + tail, None);
    assert "" + w == w;
    ScanSpace(tail, Some(Word(w, w, false)));
  }

  lemma ScanAssignment(name: string, value: string, rest: string)
    requires name != "" && (forall c | c in name :: Bare(c)) && EndsWord(rest)
    ensures Scan(name + (ShellQuote(value) + rest), false, None)
            == Prepend([WordToken(Word(name + value, name, true))], Scan(rest, false, None))
  {
    ScanBare(name, ShellQuote(value) + rest, None);
    assert "" + name == name;
    ScanQuoted(value, rest, Some(Word(name, name, false)));
    EmitAtEnd(Some(Word(name + value, name, true)), rest);
  }

  lemma ScanExported(command: string, name: string, value: string, rest: string, more: seq<Token>)
    requires command != "" && name != "" && EndsWord(rest)
    requires (forall c | c in command :: Bare(c)) && (forall c | c in name :: Bare(c))
    requires Scan(rest, false, None) == Some(more)
    ensures Scan(command + (" " + (name + (ShellQuote(value) + rest))), false, None)
            == Some([WordToken(Word(command, command, false)), WordToken(Word(name + value, name, true))] + more)
  {
    ScanBareWord(command, name + (ShellQuote(value) + rest));
    ScanAssignment(name, value, rest);
    var t1, t2 := WordToken(Word(command, command, false)), WordToken(Word(name + value, name, true));
    assert [t1] + ([t2] + more) == [t1, t2] + more;
  }

  lemma ScriptText(steps: seq<Step>, path: string)
    ensures Script(steps, path) == "export" + (" " + ("PATH=" + (ShellQuote(path) + AndSteps(steps))))
  {
    var head := "export PATH=" + ShellQuote(path);
    ScriptShape(head, steps);
    assert head == "export" + (" " + ("PATH=" + ShellQuote(path)));
  }

  const EXPORT := "export"
  const PATH_EQUALS := "PATH="

  lemma ExportIsBare()
    ensures forall c | c in EXPORT :: Bare(c)
    ensures forall c | c in PATH_EQUALS :: Bare(c)
  {
  }

  lemma ScanScript(steps: seq<Step>, path: string)
    ensures Scan(Script(steps, path), false, None)
            == Some([WordToken(EXPORT_WORD), WordToken(PathWord(path))] + StepTokens(steps))
  {
    ScriptText(steps, path);
    ScanSteps(steps);
    ExportIsBare();
    ScanExported(EXPORT, PATH_EQUALS, path, AndSteps(steps), StepTokens(steps));
  }

  function Argvs(steps: seq<Step>): (commands: seq<seq<string>>)
    ensures |commands| == |steps|
  {
    if steps == [] then [] else [steps[0].Argv()] + Argvs(steps[1..])
  }

  function QuotedWords(words: seq<string>): (ws: seq<Word>)
    ensures |ws| == |words|
    ensures forall i | 0 <= i < |words| :: ws[i] == Word(words[i], "", true)
  {
    if words == [] then [] else [Word(words[0], "", true)] + QuotedWords(words[1..])
  }

  lemma {:induction false} TextsOfQuoted(words: seq<string>)
    ensures Texts(QuotedWords(words)) == words
  {
    if words != [] {
      assert QuotedWords(words)[1..] == QuotedWords(words[1..]);
      TextsOfQuoted(words[1..]);
    }
  }

  lemma {:induction false} AndListTakesWords(words: seq<string>, rest: seq<Token>, cur: seq<Word>)
    ensures AndList(QuotedTokens(words) + rest, cur) == AndList(rest, cur + QuotedWords(words))
    decreases |words|
  {
    var ts := QuotedTokens(words) + rest;
    if words == [] {
      assert ts == rest && cur + QuotedWords(words) == cur;
    } else {
      assert ts[1..] == QuotedTokens(words[1..]) + rest;
      AndListTakesWords(words[1..], rest, cur + [Word(words[0], "", true)]);
      assert cur + [Word(words[0], "", true)] + QuotedWords(words[1..]) == cur + QuotedWords(words);
    }
  }

  lemma {:induction false} AndListOfSteps(steps: seq<Step>, cur: seq<Word>)
    requires cur != [] && CommandName(cur[0])
    ensures AndList(StepTokens(steps), cur) == Some([Texts(cur)] + Argvs(steps))
    decreases |steps|
  {
    var ts := StepTokens(steps);
    if steps == [] {
      assert [Texts(cur)] + [] == [Texts(cur)];
    } else {
      var argv, more := steps[0].Argv(), StepTokens(steps[1..]);
      assert ts[0] == AndIf && ts[1..] == QuotedTokens(argv) + more;
      AndListTakesWords(argv, more, []);
      assert [] + QuotedWords(argv) == QuotedWords(argv);
      TextsOfQuoted(argv);
      AndListOfSteps(steps[1..], QuotedWords(argv));
      assert [Texts(cur)] + ([argv] + Argvs(steps[1..])) == [Texts(cur)] + Argvs(steps);
    }
  }

  function ExportCommand(path: string): (words: seq<string>)
  {
    [EXPORT, PATH_EQUALS + path]
  }

  /** The shell reads the script as exactly the export and then each step's argv,
      whatever characters the path and the arguments hold. */
  lemma ScriptReadsBack(steps: seq<Step>, path: string)
    ensures ReadScript(Script(steps, path)) == Some([ExportCommand(path)] + Argvs(steps))
  {
    ScanScript(steps, path);
    var head := [EXPORT_WORD, PathWord(path)];
    var ts := [WordToken(EXPORT_WORD), WordToken(PathWord(path))] + StepTokens(steps);
    assert ts[1..][1..] == StepTokens(steps);
    assert [] + [EXPORT_WORD] + [PathWord(path)] == head;
    assert AndList(ts, []) == AndList(StepTokens(steps), head);
    AndListOfSteps(steps, head);
    assert head[1..] == [PathWord(path)] && head[1..][1..] == [];
    assert Texts(head) == ExportCommand(path);
  }

  /** The commands an AND-list runs, when `succeeds` says which exit with zero. */
  function Ran(commands: seq<seq<string>>, succeeds: seq<string> -> bool): (ran: seq<seq<string>>)
  {
    if commands == [] then []
    else [commands[0]] + if succeeds(commands[0]) then Ran(commands[1..], succeeds) else []
  }

  lemma {:induction false} RanStops(commands: seq<seq<string>>, succeeds: seq<string> -> bool, n: nat)
    requires n < |commands| && !succeeds(commands[n]) && forall i | 0 <= i < n :: succeeds(commands[i])
    ensures Ran(commands, succeeds) == commands[..n + 1]
    decreases n
  {
    if n == 0 {
      assert commands[..1] == [commands[0]];
    } else {
      forall i | 0 <= i < n - 1 ensures succeeds(commands[1..][i]) {
        assert commands[1..][i] == commands[i + 1];
      }
      RanStops(commands[1..], succeeds, n - 1);
      assert commands[..n + 1] == [commands[0]] + commands[1..][..n];
    }
  }

  lemma RanStopsAfter(first: seq<string>, rest: seq<seq<string>>, succeeds: seq<string> -> bool, n: nat)
    requires n < |rest| && succeeds(first) && !succeeds(rest[n]) && forall i | 0 <= i < n :: succeeds(rest[i])
    ensures Ran([first] + rest, succeeds) == [first] + rest[..n + 1]
  {
    RanStops(rest, succeeds, n);
    assert ([first] + rest)[1..] == rest;
  }

  /** The text `/bin/sh -c` is given when `program` is launched with `args`: itself,
      a launcher that runs an argv (`sudo`, `pkexec`), or `osascript` through a
      string literal. */
  function ShellInput(program: string, args: seq<string>): (s: Option<string>)
  {
    if |args| == 3 then
      if args[0] == "/bin/sh" && args[1] == "-c" then Some(args[2]) else None
    else if |args| != 2 then None
    else if args[0] == "-c" then
      if program == "/bin/sh" then Some(args[1]) else None
    else if args[0] == "-e" && FileName(program) == Some("osascript") && APPLE_HEAD <= args[1] then
      match ReadAppleString(args[1][|APPLE_HEAD|..])
      case Some((text, rest)) => if rest == APPLE_TAIL then Some(text) else None
      case None => None
    else None
  }

  lemma AppleReachesShell(program: string, script: string)
    requires FileName(program) == Some("osascript")
    ensures ShellInput(program, ["-e", APPLE_HEAD + AppleScriptQuote(script) + "\"" + APPLE_TAIL]) == Some(script)
  {
    var tail := AppleScriptQuote(script) + "\"" + APPLE_TAIL;
    AppleReadsBack(script, APPLE_TAIL);
    Assoc(APPLE_HEAD, AppleScriptQuote(script), "\"");
    Assoc(APPLE_HEAD, AppleScriptQuote(script) + "\"", APPLE_TAIL);
    assert (APPLE_HEAD + tail)[|APPLE_HEAD|..] == tail;
  }

  /** The program each privilege launches. */
  function Launcher(privilege: Privilege): (program: string)
    requires !privilege.Unavailable?
  {
    match privilege
    case Direct => "/bin/sh"
    case Sudo => "sudo"
    case Graphical(escalator) => escalator
  }

  lemma PlanReachesShell(steps: seq<Step>, path: string, privilege: Privilege, hint: string)
    requires !privilege.Unavailable?
    ensures var r := Plan(steps, path, privilege, hint);
            r.Ok? && r.value.0 == Launcher(privilege) && ShellInput(r.value.0, r.value.1) == Some(Script(steps, path))
  {
    var script := Script(steps, path);
    if privilege.Graphical? && FileName(privilege.escalator) == Some("osascript") {
      AppleReachesShell(privilege.escalator, script);
    }
  }

  lemma ReadStops(read: Option<seq<seq<string>>>, first: seq<string>, rest: seq<seq<string>>,
                  succeeds: seq<string> -> bool, n: nat)
    requires read == Some([first] + rest)
    requires n < |rest| && succeeds(first) && !succeeds(rest[n]) && forall i | 0 <= i < n :: succeeds(rest[i])
    ensures read.Some? && Ran(read.value, succeeds) == [first] + rest[..n + 1]
  {
    RanStopsAfter(first, rest, succeeds, n);
  }

  lemma ScriptStops(steps: seq<Step>, path: string, succeeds: seq<string> -> bool, n: nat)
    requires n < |steps| && succeeds(ExportCommand(path)) && !succeeds(Argvs(steps)[n])
    requires forall i | 0 <= i < n :: succeeds(Argvs(steps)[i])
    ensures var read := ReadScript(Script(steps, path));
            read.Some? && Ran(read.value, succeeds) == [ExportCommand(path)] + Argvs(steps)[..n + 1]
  {
    hide Script, ReadScript, Ran, Argvs, ExportCommand;
    ScriptReadsBack(steps, path);
    ReadStops(ReadScript(Script(steps, path)), ExportCommand(path), Argvs(steps), succeeds, n);
  }

  /** Every way of getting privilege launches its own program, and that gives the
      shell a script it reads as the export and the steps' argvs; without one there
      is only the hint. */
  lemma PlanRunsTheSteps(steps: seq<Step>, path: string, privilege: Privilege, hint: string)
    ensures privilege.Unavailable? ==> Plan(steps, path, privilege, hint) == Err(hint)
    ensures !privilege.Unavailable? ==>
              var r := Plan(steps, path, privilege, hint);
              && r.Ok? && r.value.0 == Launcher(privilege) && ShellInput(r.value.0, r.value.1).Some?
              && ReadScript(ShellInput(r.value.0, r.value.1).value) == Some([ExportCommand(path)] + Argvs(steps))
  {
    if !privilege.Unavailable? {
      PlanReachesShell(steps, path, privilege, hint);
      ScriptReadsBack(steps, path);
    }
  }
}
