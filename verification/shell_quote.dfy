/** Shell commands synthesised for search, find and delete tools (internal/api/toolmap.go), read back by a
    tokeniser for the quoting and token rules of POSIX.1-2017, Shell Command Language, sections 2.2.1, 2.2.2
    and 2.3. Argument parsing is left out: the fields come in as parameters. */
module ShellQuote {
  import opened Numbers
  import opened Options

  // ---------------------------------------------------------------- reading a command

  datatype Token = Word(text: string) | Pipe

  /** Plain text, just after a bar, inside single quotes, after a backslash. */
  datatype Mode = Plain | Bar | Single | Escaped

  /** The tokens so far and the word under way; refused on anything unquoted that the shell would expand,
      or on an operator other than a single bar. */
  datatype Lexer = Lexer(done: seq<Token>, word: Option<string>, mode: Mode) | Refused

  const START := Lexer([], None, Plain)

  predicate Special(c: char) {
    || c == '|' || c == '&' || c == ';' || c == '<' || c == '>' || c == '(' || c == ')' || c == '$'
    || c == '`' || c == '\\' || c == '"' || c == '\'' || c == ' ' || c == '\t' || c == '\n'
    || c == '*' || c == '?' || c == '[' || c == '#' || c == '~'
  }

  function Append(word: Option<string>, s: string): Option<string> {
    Some((if word.Some? then word.value else "") + s)
  }

  function Closed(done: seq<Token>, word: Option<string>): seq<Token> {
    if word.Some? then done + [Word(word.value)] else done
  }

  function StepPlain(l: Lexer, c: char): Lexer
    requires l.Lexer?
  {
    if c == '\'' then Lexer(l.done, Append(l.word, ""), Single)
    else if c == '\\' then Lexer(l.done, l.word, Escaped)
    else if c == ' ' || c == '\t' then Lexer(Closed(l.done, l.word), None, Plain)
    else if c == '|' then (if l.mode == Bar then Refused else Lexer(Closed(l.done, l.word) + [Pipe], None, Bar))
    else if Special(c) then Refused
    else Lexer(l.done, Append(l.word, [c]), Plain)
  }

  /** In single quotes everything up to the next one stands for itself (2.2.2); after a backslash the next
      character does, but for a newline, which vanishes with it (2.2.1). */
  function Step(l: Lexer, c: char): Lexer {
    if l.Refused? then l
    else
      match l.mode
      case Single => if c == '\'' then l.(mode := Plain) else l.(word := Append(l.word, [c]))
      case Escaped => if c == '\n' then l.(mode := Plain) else Lexer(l.done, Append(l.word, [c]), Plain)
      case _ => StepPlain(l, c)
  }

  function Lex(l: Lexer, s: string): Lexer {
    if s == "" then l else Step(Lex(l, s[..|s| - 1]), s[|s| - 1])
  }

  /** The tokens of a whole command, if nothing in it is left open or refused. */
  function Tokens(s: string): Option<seq<Token>> {
    var l := Lex(START, s);
    if l.Lexer? && (l.mode == Plain || l.mode == Bar) then Some(Closed(l.done, l.word)) else None
  }

  lemma {:induction false} LexConcat(l: Lexer, a: string, b: string)
    ensures Lex(l, a + b) == Lex(Lex(l, a), b)
  {
    if b == "" {
      assert a + b == a;
    } else {
      var n := |b| - 1;
      assert (a + b)[..|a| + n] == a + b[..n];
      LexConcat(l, a, b[..n]);
    }
  }

  lemma {:induction false} LexOne(l: Lexer, c: char)
    ensures Lex(l, [c]) == Step(l, c)
  {
    assert [c][..0] == "";
  }

  lemma {:induction false} LexSnoc(l: Lexer, s: string, c: char)
    ensures Lex(l, s + [c]) == Step(Lex(l, s), c)
  {
    assert (s + [c])[..|s|] == s;
  }

  lemma AppendMore(word: Option<string>, s: string, t: string)
    ensures Append(Append(word, s), t) == Append(word, s + t)
  {
    var w := if word.Some? then word.value else "";
    assert w + s + t == w + (s + t);
  }

  // ---------------------------------------------------------------- words

  predicate Bare(s: string) {
    s != "" && forall i :: 0 <= i < |s| ==> !Special(s[i])
  }

  lemma {:induction false} LexBare(l: Lexer, s: string)
    requires l.Lexer? && (l.mode == Plain || l.mode == Bar) && Bare(s)
    ensures Lex(l, s) == Lexer(l.done, Append(l.word, s), Plain)
  {
    var n := |s| - 1;
    assert s == s[..n] + [s[n]];
    LexSnoc(l, s[..n], s[n]);
    if n > 0 {
      LexBare(l, s[..n]);
      AppendMore(l.word, s[..n], [s[n]]);
    } else {
      assert s[..0] == "";
    }
  }

  /** Closes, escapes and reopens the quotes at every quote of the text. */
  function Requoted(s: string): string {
    if s == "" then ""
    else
      var c := s[|s| - 1];
      Requoted(s[..|s| - 1]) + (if c == '\'' then "'\\''" else [c])
  }

  function ShellQuoted(s: string): string {
    "'" + Requoted(s) + "'"
  }

  lemma {:induction false} ReopenQuote(l: Lexer)
    requires l.Lexer? && l.mode == Single && l.word.Some?
    ensures Lex(l, "'\\''") == l.(word := Append(l.word, "'"))
  {
    LexOne(l, '\'');
    LexSnoc(l, "'", '\\');
    LexSnoc(l, "'\\", '\'');
    LexSnoc(l, "'\\'", '\'');
    assert "'\\" == "'" + ['\\'] && "'\\'" == "'\\" + ['\''] && "'\\''" == "'\\'" + ['\''];
    AppendMore(l.word, "'", "");
    assert "'" + "" == "'" == ['\''];
  }

  lemma {:induction false} LexRequoted(l: Lexer, s: string)
    requires l.Lexer? && l.mode == Single && l.word.Some?
    ensures Lex(l, Requoted(s)) == l.(word := Append(l.word, s))
  {
    if s == "" {
      assert l.word.value + "" == l.word.value;
    } else {
      var n, c := |s| - 1, s[|s| - 1];
      LexRequoted(l, s[..n]);
      assert s == s[..n] + [c];
      AppendMore(l.word, s[..n], [c]);
      if c == '\'' {
        LexConcat(l, Requoted(s[..n]), "'\\''");
        ReopenQuote(l.(word := Append(l.word, s[..n])));
        assert [c] == "'";
      } else {
        LexSnoc(l, Requoted(s[..n]), c);
      }
    }
  }

  /** Quoted text reads back as itself, whatever characters it holds, and joins the word under way. */
  lemma {:induction false} LexQuoted(l: Lexer, s: string)
    requires l.Lexer? && (l.mode == Plain || l.mode == Bar)
    ensures Lex(l, ShellQuoted(s)) == Lexer(l.done, Append(l.word, s), Plain)
  {
    var open := Lexer(l.done, Append(l.word, ""), Single);
    LexOne(l, '\'');
    assert Lex(l, "'") == open;
    LexConcat(l, "'", Requoted(s));
    LexRequoted(open, s);
    AppendMore(l.word, "", s);
    assert "" + s == s;
    LexSnoc(l, "'" + Requoted(s), '\'');
  }

  // ---------------------------------------------------------------- building a command

  /** After this much of a command, these words are complete and this one is under way. */
  ghost predicate Reads(cmd: string, done: seq<Token>, word: string) {
    Lex(START, cmd) == Lexer(done, Some(word), Plain)
  }

  lemma ReadsTokens(cmd: string, done: seq<Token>, word: string)
    requires Reads(cmd, done, word)
    ensures Tokens(cmd) == Some(done + [Word(word)])
  {
  }

  // A blank ends the word under way.
  lemma {:induction false} BlankEnds(cmd: string, done: seq<Token>, word: string)
    requires Reads(cmd, done, word)
    ensures Lex(START, cmd + " ") == Lexer(done + [Word(word)], None, Plain)
  {
    LexSnoc(START, cmd, ' ');
    assert cmd + " " == cmd + [' '];
  }

  lemma FirstWord(s: string)
    requires Bare(s)
    ensures Reads(s, [], s)
  {
    LexBare(START, s);
    assert "" + s == s;
  }

  lemma AddBare(cmd: string, done: seq<Token>, word: string, s: string)
    requires Reads(cmd, done, word) && Bare(s)
    ensures Reads(cmd + " " + s, done + [Word(word)], s)
  {
    BlankEnds(cmd, done, word);
    LexConcat(START, cmd + " ", s);
    LexBare(Lexer(done + [Word(word)], None, Plain), s);
    assert "" + s == s;
  }

  lemma AddQuoted(cmd: string, done: seq<Token>, word: string, s: string)
    requires Reads(cmd, done, word)
    ensures Reads(cmd + " " + ShellQuoted(s), done + [Word(word)], s)
  {
    BlankEnds(cmd, done, word);
    LexConcat(START, cmd + " ", ShellQuoted(s));
    LexQuoted(Lexer(done + [Word(word)], None, Plain), s);
    assert "" + s == s;
  }

  // Quoted text right behind a word joins it.
  lemma JoinQuoted(cmd: string, done: seq<Token>, word: string, s: string)
    requires Reads(cmd, done, word)
    ensures Reads(cmd + ShellQuoted(s), done, word + s)
  {
    LexConcat(START, cmd, ShellQuoted(s));
    LexQuoted(Lexer(done, Some(word), Plain), s);
  }

  lemma AddEscaped(cmd: string, done: seq<Token>, word: string, c: char)
    requires Reads(cmd, done, word) && c != '\n'
    ensures Reads(cmd + " " + ['\\', c], done + [Word(word)], [c])
  {
    BlankEnds(cmd, done, word);
    LexSnoc(START, cmd + " ", '\\');
    LexSnoc(START, cmd + " " + ['\\'], c);
    assert cmd + " " + ['\\', c] == cmd + " " + ['\\'] + [c];
    assert "" + [c] == [c];
  }

  lemma AddPipe(cmd: string, done: seq<Token>, word: string, s: string)
    requires Reads(cmd, done, word) && Bare(s)
    ensures Reads(cmd + " | " + s, done + [Word(word), Pipe], s)
  {
    BlankEnds(cmd, done, word);
    var d := done + [Word(word), Pipe];
    LexSnoc(START, cmd + " ", '|');
    assert (done + [Word(word)]) + [Pipe] == d;
    LexSnoc(START, cmd + " " + ['|'], ' ');
    assert cmd + " | " == cmd + " " + ['|'] + [' '];
    LexConcat(START, cmd + " | ", s);
    LexBare(Lexer(d, None, Plain), s);
    assert "" + s == s;
  }

  // ---------------------------------------------------------------- numbers

  lemma {:induction false} ItoaBare(n: nat)
    ensures Bare(Itoa(n))
  {
    var s := Itoa(n);
    forall i | 0 <= i < |s|
      ensures !Special(s[i])
    {
      assert '0' <= s[i] <= '9';
    }
  }

  function DigitValue(c: char): nat {
    if '0' <= c <= '9' then (c - '0') as nat else 0
  }

  function Atoi(s: string): nat {
    if s == "" then 0 else 10 * Atoi(s[..|s| - 1]) + DigitValue(s[|s| - 1])
  }

  lemma {:induction false} AtoiSnoc(s: string, d: nat)
    requires d < 10
    ensures Atoi(s + [Digit(d)]) == 10 * Atoi(s) + d
  {
    assert (s + [Digit(d)])[..|s|] == s;
  }

  /** A limit written in decimal is that number. */
  lemma {:induction false} NumberReadBack(n: nat)
    ensures Atoi(Itoa(n)) == n
  {
    if n < 10 {
      AtoiSnoc("", n);
      assert "" + [Digit(n)] == [Digit(n)];
    } else {
      NumberReadBack(n / 10);
      AtoiSnoc(Itoa(n / 10), n % 10);
    }
  }

  // ---------------------------------------------------------------- the commands

  lemma {:induction false} HeadWords(limit: nat)
    requires limit > 0
    ensures Bare("head") && Bare("-n") && Bare(Itoa(limit))
    ensures HeadTokens(limit) == [Pipe, Word("head"), Word("-n"), Word(Itoa(limit))]
  {
    ItoaBare(limit);
  }

  /** A command under construction, and the words it reads back as. */
  class Command {
    var text: string
    ghost var done: seq<Token>
    ghost var word: string

    ghost predicate Valid()
      reads this
    {
      Reads(text, done, word)
    }

    ghost function All(): seq<Token>
      reads this
    {
      done + [Word(word)]
    }

    constructor (name: string)
      requires Bare(name)
      ensures Valid() && All() == [Word(name)]
    {
      FirstWord(name);
      text, done, word := name, [], name;
    }

    method AddWord(s: string)
      requires Valid() && Bare(s)
      modifies this
      ensures Valid() && text == old(text) + " " + s && done == old(All()) && word == s
    {
      AddBare(text, done, word, s);
      text, done, word := text + " " + s, All(), s;
    }

    method AddQuote(s: string)
      requires Valid()
      modifies this
      ensures Valid() && text == old(text) + " " + ShellQuoted(s) && All() == old(All()) + [Word(s)]
    {
      AddQuoted(text, done, word, s);
      text, done, word := text + " " + ShellQuoted(s), All(), s;
    }

    method JoinQuote(s: string)
      requires Valid()
      modifies this
      ensures Valid() && text == old(text) + ShellQuoted(s) && done == old(done) && word == old(word) + s
    {
      JoinQuoted(text, done, word, s);
      text, word := text + ShellQuoted(s), word + s;
    }

    method AddEscape(c: char)
      requires Valid() && c != '\n'
      modifies this
      ensures Valid() && text == old(text) + " " + ['\\', c] && All() == old(All()) + [Word([c])]
    {
      AddEscaped(text, done, word, c);
      text, done, word := text + " " + ['\\', c], All(), [c];
    }

    method Pipeline(s: string)
      requires Valid() && Bare(s)
      modifies this
      ensures Valid() && text == old(text) + " | " + s && All() == old(All()) + [Pipe, Word(s)]
    {
      AddPipe(text, done, word, s);
      text, done, word := text + " | " + s, All() + [Pipe], s;
    }

    method AddWords(ws: seq<string>)
      requires Valid() && forall i :: 0 <= i < |ws| ==> Bare(ws[i])
      modifies this
      ensures Valid() && All() == old(All()) + Words(ws)
    {
      for i := 0 to |ws|
        invariant Valid() && All() == old(All()) + Words(ws[..i])
      {
        AddWord(ws[i]);
        assert Words(ws[..i + 1]) == Words(ws[..i]) + [Word(ws[i])];
      }
      assert ws[..|ws|] == ws;
    }

    method WithHead(limit: int)
      requires Valid()
      modifies this
      ensures Valid() && All() == old(All()) + HeadTokens(if limit < 0 then 0 else limit)
    {
      if limit <= 0 {
        return;
      }
      HeadWords(limit);
      Pipeline("head");
      AddWord("-n");
      AddWord(Itoa(limit));
      Piped(old(All()), Itoa(limit));
    }
  }

  function Words(ws: seq<string>): seq<Token> {
    seq(|ws|, i requires 0 <= i < |ws| => Word(ws[i]))
  }

  const DEFAULT_HEAD_LIMIT := 250

  /** No limit given, or a negative one, means 250; zero means none. */
  function HeadLimit(given: Option<int>): nat {
    if given.None? || given.value < 0 then DEFAULT_HEAD_LIMIT else given.value
  }

  lemma Piped(before: seq<Token>, n: string)
    ensures before + [Pipe, Word("head")] + [Word("-n")] + [Word(n)] == before + ([Pipe] + Words(["head", "-n", n]))
  {
  }

  function HeadTokens(limit: nat): seq<Token> {
    if limit == 0 then [] else [Pipe] + Words(["head", "-n", Itoa(limit)])
  }

  /** A field under its first name, or under its second if the first is empty or missing. */
  function FirstOf(a: string, b: string): string {
    if a != "" then a else b
  }

  /** Deleting refuses the empty path and the root; any other path is one word, unaltered. */
  method DeleteToBash(pathField: string, filePathField: string) returns (r: Option<string>)
    ensures var path := FirstOf(pathField, filePathField);
            && (r.None? <==> path == "" || path == "/")
            && (r.Some? ==> Tokens(r.value) == Some(Words(["rm", "-f", path])))
  {
    var path := FirstOf(pathField, filePathField);
    if path == "" || path == "/" {
      return None;
    }
    var cmd := new Command("rm");
    cmd.AddWord("-f");
    cmd.AddQuote(path);
    ReadsTokens(cmd.text, cmd.done, cmd.word);
    assert cmd.All() == Words(["rm", "-f", path]);
    return Some(cmd.text);
  }

  /** The part of a pattern that find matches against: what follows the last slash, unless that is nothing
      or a double star. */
  function FindName(pattern: string): string {
    var i := LastSlash(pattern, |pattern|);
    if i == 0 || pattern[i..] == "" || pattern[i..] == "**" then pattern else pattern[i..]
  }

  // One past the last slash among the first n characters, or 0.
  function LastSlash(s: string, n: nat): (i: nat)
    requires n <= |s|
    ensures i <= n && (i > 0 ==> s[i - 1] == '/') && forall j :: i <= j < n ==> s[j] != '/'
  {
    if n == 0 then 0 else if s[n - 1] == '/' then n else LastSlash(s, n - 1)
  }

  predicate Everything(pattern: string) {
    FindName(pattern) in {"*", "**", "**/*"} || pattern == "**/*"
  }

  const PRUNE := ["-name", "node_modules", "-o", "-name", ".git"]
  const FILES := ["-prune", "-o", "-type", "f"]

  function FindPrefix(path: string): seq<Token> {
    Words(["find", path, "("]) + Words(PRUNE) + Words([")"]) + Words(FILES)
  }

  /** Outside dependency and version directories, the files of that name, or all of them. */
  function FindTokens(path: string, pattern: string): seq<Token> {
    FindPrefix(path) + Words(if Everything(pattern) then ["-print"] else ["-name", FindName(pattern), "-print"])
  }

  /** The string fields of a search call; a missing one is empty, and the path is trimmed. */
  datatype Fields = Fields(pattern: string, query: string, glob: string, path: string)

  method GlobToBash(f: Fields, headLimit: Option<int>) returns (r: Option<string>)
    ensures var pattern := FirstOf(f.pattern, f.glob);
            && (r.None? <==> pattern == "")
            && (r.Some? ==> Tokens(r.value) == Some(FindTokens(PathArg(f.path), pattern) + HeadTokens(HeadLimit(headLimit))))
  {
    var pattern := FirstOf(f.pattern, f.glob);
    if pattern == "" {
      return None;
    }
    var cmd := GlobPatternToFind(PathArg(f.path), pattern);
    cmd.WithHead(HeadLimit(headLimit));
    ReadsTokens(cmd.text, cmd.done, cmd.word);
    return Some(cmd.text);
  }

  /** The workspace root stands for the current directory. */
  function PathArg(path: string): string {
    if path == "" || path == "/" then "." else path
  }

  lemma FindWordsBare()
    ensures forall i :: 0 <= i < |PRUNE| ==> Bare(PRUNE[i])
    ensures forall i :: 0 <= i < |FILES| ==> Bare(FILES[i])
  {
    assert Bare("-name") && Bare("node_modules") && Bare("-o") && Bare(".git");
    assert Bare("-prune") && Bare("-type") && Bare("f");
  }

  method FindFiles(path: string) returns (cmd: Command)
    ensures fresh(cmd) && cmd.Valid() && cmd.All() == FindPrefix(path)
  {
    FindWordsBare();
    cmd := new Command("find");
    cmd.AddQuote(path);
    cmd.AddEscape('(');
    assert cmd.All() == Words(["find", path, "("]);
    cmd.AddWords(PRUNE);
    cmd.AddEscape(')');
    cmd.AddWords(FILES);
    assert [Word([')'])] == Words([")"]);
  }

  method GlobPatternToFind(path: string, pattern: string) returns (cmd: Command)
    ensures fresh(cmd) && cmd.Valid() && cmd.All() == FindTokens(path, pattern)
  {
    var name := FindName(pattern);
    cmd := FindFiles(path);
    if name in {"*", "**", "**/*"} || pattern == "**/*" {
      cmd.AddWord("-print");
      assert cmd.All() == FindPrefix(path) + Words(["-print"]);
      return;
    }
    cmd.AddWord("-name");
    cmd.AddQuote(name);
    cmd.AddWord("-print");
    assert cmd.All() == FindPrefix(path) + Words(["-name", name, "-print"]);
  }

  // ---------------------------------------------------------------- grep

  datatype Output = FilesWithMatches | Count | Lines

  /** Files that match are listed, matches counted, or lines shown with their numbers; no flag stands for two of these. */
  function OutputFlag(o: Output): (flag: string)
    ensures flag == "-l" <==> o.FilesWithMatches?
    ensures flag == "-c" <==> o.Count?
    ensures flag == "-n" <==> o.Lines?
  {
    match o
    case FilesWithMatches => "-l"
    case Count => "-c"
    case Lines => "-n"
  }

  const EXCLUDE := "--exclude-dir="
  const EXCLUDES := [EXCLUDE + "node_modules", EXCLUDE + ".git"]

  /** The pattern and the path are a word each, and the glob the rest of the include option, unaltered. */
  function GrepTokens(pattern: string, path: string, glob: string, output: Output, ignoreCase: bool): seq<Token> {
    Words(["grep", "-E", "-r", OutputFlag(output)]) + Words(if ignoreCase then ["-i"] else []) + Words(EXCLUDES)
    + Words(if glob != "" then ["--include=" + glob] else []) + Words([pattern, path])
  }

  /** What grep searches for. */
  function GrepPattern(f: Fields): string {
    FirstOf(f.pattern, f.query)
  }

  /** A pattern that looks like a file name, unless contents are asked for (`filename`), is left to find, which
      reads the fields its own way. */
  method GrepToBash(f: Fields, output: Output, ignoreCase: bool, filename: bool, headLimit: Option<int>) returns (r: Option<string>)
    ensures GrepPattern(f) == "" ==> r.None?
    ensures GrepPattern(f) != "" && !filename ==>
              r.Some? && Tokens(r.value) == Some(GrepTokens(GrepPattern(f), PathArg(f.path), f.glob, output, ignoreCase)
                                                 + HeadTokens(HeadLimit(headLimit)))
    ensures GrepPattern(f) != "" && filename ==>
              (if FirstOf(f.pattern, f.glob) == "" then r.None?
               else r.Some? && Tokens(r.value) == Some(FindTokens(PathArg(f.path), FirstOf(f.pattern, f.glob))
                                                       + HeadTokens(HeadLimit(headLimit))))
  {
    var pattern := GrepPattern(f);
    if pattern == "" {
      return None;
    }
    if filename {
      r := GlobToBash(f, headLimit);
      return;
    }
    var cmd := GrepFlags(output, ignoreCase);
    GrepWords(cmd, pattern, PathArg(f.path), f.glob);
    cmd.WithHead(HeadLimit(headLimit));
    ReadsTokens(cmd.text, cmd.done, cmd.word);
    return Some(cmd.text);
  }

  /** Handed over to find, the search is for the pattern that was asked for exactly when that came as
      "pattern", or as both "query" and "glob". */
  lemma FindSearchesPattern(f: Fields)
    requires GrepPattern(f) != ""
    ensures FirstOf(f.pattern, f.glob) == GrepPattern(f) <==> f.pattern != "" || f.glob == f.query
  {
  }

  /** A file-name pattern given as "query": refused without a glob, and not searched for with another one. */
  lemma QueryLost()
    ensures var bare, both := Fields("", "*.go", "", ""), Fields("", "*.go", "*.ts", "");
            && GrepPattern(bare) == GrepPattern(both) == "*.go"
            && FirstOf(bare.pattern, bare.glob) == "" && FirstOf(both.pattern, both.glob) == "*.ts"
  {
  }

  function GrepPrefix(output: Output, ignoreCase: bool): seq<Token> {
    Words(["grep", "-E", "-r", OutputFlag(output)]) + Words(if ignoreCase then ["-i"] else [])
  }

  lemma BareConcat(a: string, b: string)
    requires Bare(a) && Bare(b)
    ensures Bare(a + b)
  {
  }

  lemma ExcludesBare()
    ensures forall i :: 0 <= i < |EXCLUDES| ==> Bare(EXCLUDES[i])
  {
    BareConcat(EXCLUDE, "node_modules");
    BareConcat(EXCLUDE, ".git");
  }

  method GrepFlags(output: Output, ignoreCase: bool) returns (cmd: Command)
    ensures fresh(cmd) && cmd.Valid() && cmd.All() == GrepPrefix(output, ignoreCase)
  {
    cmd := new Command("grep");
    cmd.AddWord("-E");
    cmd.AddWord("-r");
    AddOutput(cmd, output);
    assert cmd.All() == Words(["grep", "-E", "-r", OutputFlag(output)]);
    if ignoreCase {
      cmd.AddWord("-i");
      assert [Word("-i")] == Words(["-i"]);
    }
  }

  method AddOutput(cmd: Command, output: Output)
    requires cmd.Valid()
    modifies cmd
    ensures cmd.Valid() && cmd.All() == old(cmd.All()) + [Word(OutputFlag(output))]
  {
    match output {
      case FilesWithMatches => cmd.AddWord("-l");
      case Count => cmd.AddWord("-c");
      case Lines => cmd.AddWord("-n");
    }
  }

  method GrepWords(cmd: Command, pattern: string, path: string, glob: string)
    requires cmd.Valid()
    modifies cmd
    ensures cmd.Valid()
    ensures cmd.All() == old(cmd.All()) + Words(EXCLUDES) + Words(if glob != "" then ["--include=" + glob] else [])
                         + Words([pattern, path])
  {
    ExcludesBare();
    cmd.AddWords(EXCLUDES);
    if glob != "" {
      AddInclude(cmd, glob);
    }
    cmd.AddQuote(pattern);
    cmd.AddQuote(path);
    assert [Word(pattern)] + [Word(path)] == Words([pattern, path]);
  }

  method AddInclude(cmd: Command, glob: string)
    requires cmd.Valid()
    modifies cmd
    ensures cmd.Valid() && cmd.All() == old(cmd.All()) + Words(["--include=" + glob])
  {
    cmd.AddWord("--include=");
    cmd.JoinQuote(glob);
    assert [Word("--include=" + glob)] == Words(["--include=" + glob]);
  }
}
