/**
 * What every handler returns: `{isError?, content: [{type: 'text', text}]}`,
 * built from what the subprocess call produced. Non-empty stderr and a thrown
 * failure both give an error with the tool's prefix; otherwise the text is
 * stdout, with a fixed message for empty stdout in find_commands and run_script.
 */
module Envelopes {
  import opened Wrappers
  import opened Tools

  /** What awaiting the subprocess produced: both streams, or a thrown error with its message. */
  datatype ExecResult = Completed(stdout: string, stderr: string) | Threw(message: string)

  /** One content item; `kind` is its `type` field. */
  datatype Content = Content(kind: string, text: string)

  /** `isError` holds exactly when the handler sets the field (it only ever sets it to true). */
  datatype Envelope = Envelope(isError: bool, content: seq<Content>)

  /** The prefix each tool puts before stderr or the thrown message. */
  function ErrorPrefix(t: Tool): string
  {
    match t
    case ExecutePs(_) => "Error executing PowerShell command: "
    case GetSystemInfo => "Error retrieving system information: "
    case ListModules => "Error listing PowerShell modules: "
    case GetCommandHelp(_) => "Error retrieving help: "
    case FindCommands(_) => "Error finding commands: "
    case RunScript(_, _) => "Error running script: "
  }

  const NoCommandsFound: string := "No commands found matching the search term."
  const NoScriptOutput: string := "Script executed successfully with no output."

  /** The text `stdout || '…'` falls back to, for the two tools that have one. */
  function EmptyOutputText(t: Tool): Option<string>
  {
    match t
    case FindCommands(_) => Some(NoCommandsFound)
    case RunScript(_, _) => Some(NoScriptOutput)
    case _ => None
  }

  /** The subprocess completed and wrote something to stderr (`if (stderr)`). */
  predicate WroteStderr(e: ExecResult)
  {
    e.Completed? && e.stderr != ""
  }

  /** The subprocess completed with an empty stderr. */
  predicate Clean(e: ExecResult)
  {
    e.Completed? && e.stderr == ""
  }

  /** The text an error envelope carries after the prefix, if the outcome is a failure. */
  function FailureText(e: ExecResult): Option<string>
  {
    match e
    case Threw(message) => Some(message)
    case Completed(_, stderr) => if stderr != "" then Some(stderr) else None
  }

  function TextEnvelope(isError: bool, text: string): Envelope
  {
    Envelope(isError, [Content("text", text)])
  }

  /** The success text: stdout, or the tool's fallback when stdout is empty and the tool has one. */
  function SuccessText(t: Tool, stdout: string): string
  {
    if stdout == "" && EmptyOutputText(t).Some? then EmptyOutputText(t).value else stdout
  }

  /** The envelope a handler builds from the subprocess outcome (its `try`/`catch`). */
  function Respond(t: Tool, e: ExecResult): (r: Envelope)
    ensures |r.content| == 1 && r.content[0].kind == "text"
    ensures r.isError <==> !Clean(e)
  {
    match e
    case Threw(message) => TextEnvelope(true, ErrorPrefix(t) + message)
    case Completed(stdout, stderr) =>
      if stderr != "" then TextEnvelope(true, ErrorPrefix(t) + stderr)
      else TextEnvelope(false, SuccessText(t, stdout))
  }

  /**
   * A whole handler: build the command line, hand it to the subprocess (the
   * parameter `run` stands for `execAsync`), and classify what came back.
   */
  function Handle(t: Tool, run: string -> ExecResult): (r: Envelope)
    ensures |r.content| == 1 && r.content[0].kind == "text"
    ensures r.isError <==> !Clean(run(BuildCommand(t)))
  {
    Respond(t, run(BuildCommand(t)))
  }

  /** Reads an error envelope back: the text after the tool's prefix. */
  function ErrorDetail(t: Tool, r: Envelope): Option<string>
  {
    if r.isError && |r.content| == 1 && ErrorPrefix(t) <= r.content[0].text
    then Some(r.content[0].text[|ErrorPrefix(t)|..])
    else None
  }

  /** The three outcomes are exhaustive and mutually exclusive. */
  lemma OutcomeCases(e: ExecResult)
    ensures WroteStderr(e) || e.Threw? || Clean(e)
    ensures !(WroteStderr(e) && e.Threw?) && !(WroteStderr(e) && Clean(e)) && !(e.Threw? && Clean(e))
    ensures FailureText(e).Some? <==> !Clean(e)
  {
  }

  /**
   * Error envelopes carry the failure verbatim after the prefix: stripping the
   * prefix gives back exactly stderr or the thrown message, and success
   * envelopes give nothing.
   */
  lemma RespondErrorDetail(t: Tool, e: ExecResult)
    ensures ErrorDetail(t, Respond(t, e)) == FailureText(e)
  {
    var r, p := Respond(t, e), ErrorPrefix(t);
    if e.Threw? {
      assert r.content[0].text == p + e.message;
      assert (p + e.message)[|p|..] == e.message;
    } else if e.stderr != "" {
      assert r.content[0].text == p + e.stderr;
      assert (p + e.stderr)[|p|..] == e.stderr;
    }
  }

  /**
   * Non-empty stderr decides the outcome whatever stdout holds, and gives the
   * same envelope as a thrown error with that text as its message.
   */
  lemma StderrOverridesStdout(t: Tool, stdout1: string, stdout2: string, stderr: string)
    requires stderr != ""
    ensures Respond(t, Completed(stdout1, stderr)) == Respond(t, Completed(stdout2, stderr))
    ensures Respond(t, Completed(stdout1, stderr)) == Respond(t, Threw(stderr))
    ensures Respond(t, Threw(stderr)) == TextEnvelope(true, ErrorPrefix(t) + stderr)
  {
  }

  /**
   * A clean run gives a non-error envelope with stdout verbatim when stdout is
   * non-empty; empty stdout gives the fixed message in find_commands and
   * run_script and the empty text in the other four tools.
   */
  lemma CleanRunText(t: Tool, stdout: string)
    ensures !Respond(t, Completed(stdout, "")).isError
    ensures stdout != "" ==> Respond(t, Completed(stdout, "")).content[0].text == stdout
    ensures stdout == "" && t.FindCommands? ==> Respond(t, Completed(stdout, "")).content[0].text == NoCommandsFound
    ensures stdout == "" && t.RunScript? ==> Respond(t, Completed(stdout, "")).content[0].text == NoScriptOutput
    ensures stdout == "" && !t.FindCommands? && !t.RunScript? ==> Respond(t, Completed(stdout, "")).content[0].text == ""
  {
  }

  /** Whether a call fails depends only on the outcome's class, never on the tool or on the texts. */
  lemma ClassificationStable(t1: Tool, t2: Tool, e1: ExecResult, e2: ExecResult)
    requires Clean(e1) == Clean(e2)
    ensures Respond(t1, e1).isError == Respond(t2, e2).isError
  {
  }

  /** With the interpreter unavailable, every tool reports the launch failure's message after its prefix. */
  lemma InterpreterUnavailable(t: Tool, run: string -> ExecResult, message: string)
    requires forall c :: run(c) == Threw(message)
    ensures Handle(t, run) == TextEnvelope(true, ErrorPrefix(t) + message)
  {
  }
}
