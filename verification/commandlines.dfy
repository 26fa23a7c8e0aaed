/**
 * The two shapes of command line the handlers build: an inline script wrapped
 * as `powershell -Command "…"` after its double quotes are escaped, and a
 * script file run as `powershell -File "…"` with nothing escaped.
 */
module CommandLines {
  import opened Wrappers
  import opened Escaping

  const CommandPrefix: string := "powershell -Command \""
  const FilePrefix: string := "powershell -File \""

  /** `powershell -Command "${script.replace(/"/g, '\\"')}"` */
  function CommandLine(script: string): string
  {
    CommandPrefix + Escape(script) + [Quote]
  }

  /** JavaScript truthiness of an optional string: present and non-empty. */
  predicate Truthy(p: Option<string>)
  {
    p.Some? && p.value != ""
  }

  /** run_script's command line: path and parameters go in as they are. */
  function FileCommandLine(scriptPath: string, parameters: Option<string>): string
  {
    if Truthy(parameters) then FilePrefix + scriptPath + [Quote] + " " + parameters.value
    else FilePrefix + scriptPath + [Quote]
  }

  /**
   * Reads a `-Command` line back: strips the prefix and the closing quote and
   * removes the backslashes the escape inserted.
   */
  function ExtractScript(cmd: string): Option<string>
  {
    if |cmd| > |CommandPrefix| && cmd[..|CommandPrefix|] == CommandPrefix && cmd[|cmd| - 1] == Quote
    then Some(Unescape(cmd[|CommandPrefix|..|cmd| - 1]))
    else None
  }

  /** `r[i]` is a double quote with no backslash immediately before it. */
  predicate BareQuoteAt(r: string, i: int)
  {
    0 <= i < |r| && r[i] == Quote && (i == 0 || r[i - 1] != Backslash)
  }

  /** A `-Command` line reads back to the script it wraps. */
  lemma CommandLineRoundTrip(script: string)
    ensures ExtractScript(CommandLine(script)) == Some(script)
  {
    var cmd, e := CommandLine(script), Escape(script);
    assert cmd[..|CommandPrefix|] == CommandPrefix;
    assert cmd[|CommandPrefix|..|cmd| - 1] == e;
    UnescapeEscape(script);
  }

  /** The last character of escaped text is the last character of its input. */
  lemma EscapeLast(s: string)
    requires s != []
    ensures Escape(s) != [] && Escape(s)[|Escape(s)| - 1] == s[|s| - 1]
  {
    var init, last := s[..|s| - 1], s[|s| - 1];
    assert s == init + [last];
    EscapeAppend(init, [last]);
    assert Escape([last]) == EscapeChar(last);
  }

  /**
   * Where the bare double quotes of a `-Command` line are: the opening delimiter
   * always, nothing inside the escaped script, and the closing delimiter unless
   * the script ends in a backslash (which the escape leaves alone, so it ends up
   * right before the closing quote).
   */
  lemma CommandLineDelimiters(script: string)
    ensures BareQuoteAt(CommandLine(script), |CommandPrefix| - 1)
    ensures forall i :: BareQuoteAt(CommandLine(script), i) ==>
              i == |CommandPrefix| - 1 || i == |CommandLine(script)| - 1
    ensures BareQuoteAt(CommandLine(script), |CommandLine(script)| - 1) <==>
              script == [] || script[|script| - 1] != Backslash
  {
    var cmd, p, e := CommandLine(script), CommandPrefix, Escape(script);
    var n := |p|;
    assert p == "powershell -Command " + [Quote];
    assert forall k :: 0 <= k < n - 1 ==> p[k] != Quote;
    EscapeQuotesEscaped(script);
    if script != [] {
      EscapeLast(script);
      assert cmd[|cmd| - 2] == e[|e| - 1];
    } else {
      assert e == [];
    }
  }

  /**
   * Text spliced into a template is escaped together with it: the escaped
   * script is the escaped head, the escaped insertion and the escaped tail.
   */
  lemma CommandLineSplice(head: string, insert: string, tail: string)
    ensures CommandLine(head + insert + tail)
         == CommandPrefix + (Escape(head) + Escape(insert) + Escape(tail)) + [Quote]
  {
    EscapeAppend(head + insert, tail);
    assert Escape(head + insert + tail) == Escape(head + insert) + Escape(tail);
    EscapeAppend(head, insert);
  }

  /** The splice of five pieces, for a template whose insertion point is itself quoted. */
  lemma CommandLineSplice5(a: string, b: string, c: string, d: string, e: string)
    ensures CommandLine(a + b + c + d + e)
         == CommandPrefix + (Escape(a) + Escape(b) + Escape(c) + Escape(d) + Escape(e)) + [Quote]
  {
    EscapeAppend(a + b + c + d, e);
    assert Escape(a + b + c + d + e) == Escape(a + b + c + d) + Escape(e);
    EscapeAppend(a + b + c, d);
    assert Escape(a + b + c + d) == Escape(a + b + c) + Escape(d);
    EscapeAppend(a + b, c);
    assert Escape(a + b + c) == Escape(a + b) + Escape(c);
    EscapeAppend(a, b);
  }

  /** run_script escapes nothing: the path sits in the line exactly as given, right after the prefix. */
  lemma FilePathVerbatim(scriptPath: string, parameters: Option<string>)
    ensures var cmd := FileCommandLine(scriptPath, parameters);
            cmd[..|FilePrefix|] == FilePrefix
            && cmd[|FilePrefix|..|FilePrefix| + |scriptPath|] == scriptPath
            && cmd[|FilePrefix| + |scriptPath|] == Quote
  {
    var cmd := FileCommandLine(scriptPath, parameters);
    var line := FilePrefix + scriptPath + [Quote];
    assert cmd[..|line|] == line;
  }

  /**
   * run_script escapes nothing in the parameters either: after the path's
   * closing quote the line holds a space and the parameters exactly as given
   * when they are present and non-empty, and ends there otherwise.
   */
  lemma FileParametersVerbatim(scriptPath: string, parameters: Option<string>)
    ensures var cmd, n := FileCommandLine(scriptPath, parameters), |FilePrefix| + |scriptPath| + 1;
            if Truthy(parameters) then
              |cmd| == n + 1 + |parameters.value| && cmd[n] == ' ' && cmd[n + 1..] == parameters.value
            else
              |cmd| == n
  {
    if Truthy(parameters) {
      var cmd, n := FileCommandLine(scriptPath, parameters), |FilePrefix| + |scriptPath| + 1;
      var line := FilePrefix + scriptPath + [Quote] + " ";
      assert cmd == line + parameters.value;
      assert cmd[n + 1..] == parameters.value;
    }
  }

  /**
   * Because nothing is escaped, a double quote in the path can pose as the
   * closing delimiter: two different run_script calls submit the same line.
   */
  lemma FileCommandCollision()
    ensures FileCommandLine("a\" b", None) == FileCommandLine("a", Some("b\""))
  {
  }

  /**
   * For paths without double quotes the line does determine the call: the
   * path, and the parameters when truthy, can be read back unambiguously.
   */
  lemma FileCommandInjective(path1: string, parameters1: Option<string>, path2: string, parameters2: Option<string>)
    requires CountQuotes(path1) == 0 && CountQuotes(path2) == 0
    requires FileCommandLine(path1, parameters1) == FileCommandLine(path2, parameters2)
    ensures path1 == path2
    ensures Truthy(parameters1) == Truthy(parameters2)
    ensures Truthy(parameters1) ==> parameters1.value == parameters2.value
  {
    var cmd, m := FileCommandLine(path1, parameters1), |FilePrefix|;
    FilePathVerbatim(path1, parameters1);
    FilePathVerbatim(path2, parameters2);
    if |path1| < |path2| {
      assert cmd[m..m + |path2|][|path1|] == path2[|path1|];
      QuoteFreeAt(path2, |path1|);
      assert false;
    } else if |path2| < |path1| {
      assert cmd[m..m + |path1|][|path2|] == path1[|path2|];
      QuoteFreeAt(path1, |path2|);
      assert false;
    }
    assert path1 == cmd[m..m + |path1|] == path2;
    FileParametersVerbatim(path1, parameters1);
    FileParametersVerbatim(path2, parameters2);
  }

  /** The `-File` prefix holds one double quote, the opening delimiter. */
  lemma FilePrefixQuotes()
    ensures CountQuotes(FilePrefix) == 1
  {
    OneClosingQuote(FilePrefix);
  }

  /** Every double quote of the path and of the parameters reaches the line as it is: only the two delimiters are added. */
  lemma FileCommandQuotes(scriptPath: string, parameters: Option<string>)
    ensures CountQuotes(FileCommandLine(scriptPath, parameters))
         == 2 + CountQuotes(scriptPath) + (if Truthy(parameters) then CountQuotes(parameters.value) else 0)
  {
    var line := FilePrefix + scriptPath + [Quote];
    FilePrefixQuotes();
    CountQuotesAppend(FilePrefix, scriptPath);
    CountQuotesAppend(FilePrefix + scriptPath, [Quote]);
    assert CountQuotes(line) == 2 + CountQuotes(scriptPath);
    if Truthy(parameters) {
      var x := parameters.value;
      assert FileCommandLine(scriptPath, parameters) == line + " " + x;
      CountQuotesAppend(line, " ");
      CountQuotesAppend(line + " ", x);
    } else {
      assert FileCommandLine(scriptPath, parameters) == line;
    }
  }
}
