# PowerShell MCP server: command building and response envelopes

A model of the six tool handlers of the PowerShell MCP server (`registerTools` in
`dist/index.js`): `execute_ps`, `get_system_info`, `list_modules`,
`get_command_help`, `find_commands` and `run_script`. Each handler turns its
parameters into one command line, hands it to a PowerShell subprocess, and wraps
what comes back in an envelope `{isError?, content: [{type: 'text', text}]}`.

The model is pure: functions over datatypes, with lemmas.

- `wrappers.dfy`, module `Wrappers`: `Option`, for the optional `parameters` of `run_script`.
- `escaping.dfy`, module `Escaping`: the escape `s.replace(/"/g, '\\"')` as `Escape`. Also
  `Unescape`, a left-to-right inverse that drops the backslash in front of each quote. It exists
  only to state what the escape preserves; the server has no such function.
- `commandlines.dfy`, module `CommandLines`: the two command-line shapes.
  - `CommandLine(script)` builds `powershell -Command "<escaped script>"`.
  - `FileCommandLine(path, parameters)` builds `powershell -File "<path>"`, followed by
    ` <parameters>` only when the parameters are truthy (present and non-empty).
  - `ExtractScript` reads a `-Command` line back.
- `tools.dfy`, module `Tools`: the `Tool` datatype, with one constructor per handler carrying its
  parameters. Also the script templates, written out exactly, `Script(tool)` and
  `BuildCommand(tool)`.
- `envelopes.dfy`, module `Envelopes`: the subprocess outcome
  `ExecResult = Completed(stdout, stderr) | Threw(message)`, the `Envelope`, the per-tool error
  prefixes and empty-output fallbacks, `Respond(tool, outcome)`, and
  `Handle(tool, run)`. `Handle` is a whole handler; the parameter `run` stands for `execAsync`.

## Model

| member | source | states |
|---|---|---|
| `Escaping.Escape` | dist/index.js:32 | Defines `s.replace(/"/g, '\\"')`: each double quote becomes backslash-quote, and every other character is kept in order. Its properties are the lemmas below. |
| `Escaping.EscapeLength` | dist/index.js:32 | The escaped text is longer than the input by exactly the number of double quotes in the input. |
| `Escaping.EscapeIdentity` | dist/index.js:32 | The escape leaves a string unchanged if and only if the string contains no double quote. |
| `Escaping.EscapeKeepsQuoteCount` | dist/index.js:32 | The escape adds and removes no double quotes: the escaped text has exactly as many as the input. |
| `Escaping.EscapeQuotesEscaped` | dist/index.js:32 | Every double quote in escaped text has a backslash immediately before it, so none stands bare. |
| `Escaping.UnescapeEscape` | dist/index.js:32 | Scanning left to right and deleting the backslash in front of each quote gives back the input exactly. So the escape is injective and only inserts backslashes. |
| `Escaping.EscapeAppend` | dist/index.js:32 | The escape works character by character: escaping a concatenation is concatenating the escapes. |
| `CommandLines.CommandLine` | dist/index.js:32-237 | Defines the `-Command` line `powershell -Command "` + escaped script + `"` that the five inline tools submit (lines 32, 88, 130, 193, 237). `CommandLineRoundTrip` and `CommandLineDelimiters` state its properties. |
| `CommandLines.FileCommandLine` | dist/index.js:276-278 | Defines `run_script`'s line `powershell -File "` + path + `"`, followed by a space and the parameters only when they are present and non-empty. `FilePathVerbatim`, `FileParametersVerbatim`, `FileCommandCollision` and `FileCommandInjective` state its properties. |
| `CommandLines.CommandLineRoundTrip` | dist/index.js:32 | A `-Command` line starts with `powershell -Command "` and ends with `"`. Stripping both and unescaping the rest gives back the script exactly. |
| `CommandLines.CommandLineDelimiters` | dist/index.js:32 | In a `-Command` line, the opening quote is the only bare double quote before the payload, and the payload has none. The closing quote is bare if and only if the script does not end in a backslash: backslashes are not escaped, so a trailing one ends up right before the closing quote. |
| `CommandLines.CommandLineSplice` | dist/index.js:168-193 | Text spliced between a template head and tail is escaped along with them. The escaped script is the escaped head, then the escaped insertion, then the escaped tail. |
| `CommandLines.FileParametersVerbatim` | dist/index.js:276-278 | After the path's closing quote, the `-File` line holds a space and the parameters exactly as given, unescaped, when the parameters are present and non-empty. Otherwise the line ends at that quote, so absent and empty parameters give the same line. |
| `CommandLines.FileCommandCollision` | dist/index.js:276-278 | Nothing is escaped, so a double quote in the path can pose as the closing delimiter. The path `a" b` without parameters and the path `a` with parameters `b"` submit the same line. |
| `CommandLines.FileCommandInjective` | dist/index.js:276-278 | For paths without double quotes the line determines the call. Two calls that submit the same line have the same path, and the same parameters whenever those are truthy. |
| `CommandLines.FilePathVerbatim` | dist/index.js:276-278 | The script path sits unescaped in the `-File` line, right after the prefix and right before the closing quote. |
| `CommandLines.FileCommandQuotes` | dist/index.js:276-278 | Building the `-File` line adds and removes no double quote apart from the two delimiters: the line holds those two plus the quotes of the path and of any appended parameters. That the quotes stay unescaped is stated by `FilePathVerbatim` and `FileParametersVerbatim`. |
| `Tools.Script` | dist/index.js:68-236 | Defines the script each inline tool submits. It is the caller's `command` for `execute_ps`, the fixed bodies at lines 68-87 and 124-129, and the templates at lines 168-192 and 231-236 with the caller's text spliced in. |
| `Tools.BuildCommand` | dist/index.js:28-279 | Defines the one line each handler passes to the subprocess: `CommandLine(Script(t))` for the five inline tools, and `FileCommandLine` for `run_script`. |
| `Tools.BuildCommandRoundTrip` | dist/index.js:28-237 | For each of the five `-Command` tools, the submitted line reads back to exactly that tool's script. The script is the caller's `command` for `execute_ps` (line 32). It is the fixed body for `get_system_info` and `list_modules` (lines 88 and 130), and the filled-in template for `get_command_help` and `find_commands` (lines 193 and 237). |
| `Tools.HelpCommandSplice` | dist/index.js:168-193 | `get_command_help` puts the caller's `command` raw between `Get-Help ` and ` -Full`. Its quotes are escaped together with the template's own. |
| `Tools.FindCommandsSplice` | dist/index.js:231-237 | `find_commands` puts the caller's `search` between `"*` and `*"`. The line carries `\"*`, the escaped search term, then `*\"`. |
| `Tools.EscapeWildcards` | dist/index.js:232 | The quotes of the `"*…*"` wildcard around the search term come out as `\"*` and `*\"`. |
| `Envelopes.ErrorPrefix` | dist/index.js:39-306 | Defines the six error prefixes, each used for both stderr and the thrown message (lines 39/59, 95/115, 137/157, 200/220, 244/264, 286/306). |
| `Envelopes.EmptyOutputText` | dist/index.js:253-295 | Defines the fallback for empty stdout: "No commands found matching the search term." for `find_commands` (line 253), "Script executed successfully with no output." for `run_script` (line 295), none for the other four tools. |
| `Envelopes.SuccessText` | dist/index.js:44-298 | Defines the text of a success envelope: `stdout`, or the tool's fallback when `stdout` is empty and the tool has one. `CleanRunText` states its cases. |
| `Envelopes.Respond` | dist/index.js:31-63 | Every envelope has exactly one content item, of type `text`. It is an error if and only if the outcome is not a clean completion: stderr was non-empty or the call threw. The same holds for the other five handlers (lines 88-119, 130-161, 193-224, 237-268, 279-310). |
| `Envelopes.Handle` | dist/index.js:30-64 | A whole handler yields exactly one single-text envelope. It is an error exactly when running the built command line is not a clean completion. |
| `Envelopes.OutcomeCases` | dist/index.js:31-63 | The three outcomes are exhaustive and mutually exclusive: non-empty stderr, a thrown error, a clean completion. Only the first two have a failure text. |
| `Envelopes.RespondErrorDetail` | dist/index.js:33-63 | Stripping the tool's prefix from an error envelope gives back stderr or the thrown message verbatim. A success envelope gives nothing. |
| `Envelopes.StderrOverridesStdout` | dist/index.js:33-310 | For every tool, non-empty stderr gives `isError` with text = prefix + stderr, whatever stdout holds. The envelope is identical to the one for a thrown error with the same message. The handlers are at lines 33-43 and 53-63, 89-99 and 109-119, 131-141 and 151-161, 194-204 and 214-224, 238-248 and 258-268, 280-290 and 300-310. |
| `Envelopes.CleanRunText` | dist/index.js:44-298 | Empty stderr gives a non-error envelope with stdout verbatim when stdout is non-empty. Empty stdout gives "No commands found matching the search term." in `find_commands` (line 253) and "Script executed successfully with no output." in `run_script` (line 295). It gives empty text in the other four tools (lines 44-51, 100-107, 142-149, 205-212). |
| `Envelopes.ClassificationStable` | dist/index.js:33-63 | Whether a call is an error depends only on the outcome's class. It never depends on the tool or on the texts. |
| `Envelopes.InterpreterUnavailable` | dist/index.js:53-63 | When every subprocess call throws with message m, every tool returns an error envelope whose text is its prefix followed by m. |

## Left out

- Running the subprocess (`exec`, `promisify`, `await`) is operating-system I/O. `Handle` takes it as a function `run` from command line to `ExecResult`. Node's `child_process` decides when `exec` rejects (a non-zero exit status, a missing interpreter); that code is not part of this model.
- What PowerShell does with the scripts is left out: the module lists, the help records, the JSON output and the floating-point GB rounding. The script bodies are kept as exact string constants.
- How `powershell` or the system shell tokenises the escaped text is left out. Only function-level properties of the escape are proved. One might expect the subprocess to receive the literal command text. The code escapes double quotes only, so `CommandLineDelimiters` states what the code does: a script ending in a backslash puts a backslash before the closing quote.
- Tool registration (`McpServer`, `server.tool`), the zod parameter schemas and lookup by tool name are left out. They live in the MCP SDK. Parameters are taken as already validated, and an unknown tool never reaches a handler.
- Server start-up, the stdio transport, `console.error` and `process.exit` are transport and process lifecycle.
- Concurrent calls are left out: handlers share no state.
- Success envelopes in the source have no `isError` field. The model writes `isError == false` for that, since the handlers only ever set the field to `true`.
- A thrown value without a `message` property would print as `undefined` after the prefix. The model takes the message as a string.
