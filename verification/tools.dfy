/**
 * The six tools and the command line each handler hands to the subprocess:
 * five run an inline PowerShell script (the caller's command, a fixed script,
 * or a template with the caller's text spliced in) and `run_script` runs a file.
 */
module Tools {
  import opened Wrappers
  import opened Escaping
  import opened CommandLines

  /** One constructor per registered tool, carrying the parameters it was called with. */
  datatype Tool =
    | ExecutePs(command: string)                                 // execute_ps
    | GetSystemInfo                                              // get_system_info
    | ListModules                                                // list_modules
    | GetCommandHelp(command: string)                            // get_command_help
    | FindCommands(search: string)                               // find_commands
    | RunScript(scriptPath: string, parameters: Option<string>)  // run_script

  // The fixed script bodies. What PowerShell makes of them is outside the model;
  // only their text matters here.

  const SystemInfoScript: string :=
    "\n" +
    "            $ComputerInfo = Get-ComputerInfo\n" +
    "            $PSVersion = $PSVersionTable\n" +
    "            $EnvVars = Get-ChildItem Env: | Sort-Object Name\n" +
    "\n" +
    "            $Output = [PSCustomObject]@{\n" +
    "              ComputerName = $ComputerInfo.CsName\n" +
    "              OSName = $ComputerInfo.WindowsProductName\n" +
    "              OSVersion = $ComputerInfo.OsVersion\n" +
    "              OSBuild = $ComputerInfo.OsBuildNumber\n" +
    "              ProcessorName = $ComputerInfo.CsProcessors.Name\n" +
    "              TotalMemory = \"$([math]::Round($ComputerInfo.CsTotalPhysicalMemory / 1GB, 2)) GB\"\n" +
    "              PSVersion = \"$($PSVersion.PSVersion)\"\n" +
    "              PSEdition = \"$($PSVersion.PSEdition)\"\n" +
    "              PSBuildVersion = \"$($PSVersion.BuildVersion)\"\n" +
    "              CLRVersion = \"$($PSVersion.CLRVersion)\"\n" +
    "            }\n" +
    "\n" +
    "            ConvertTo-Json -InputObject $Output -Depth 3\n" +
    "          "

  const ListModulesScript: string :=
    "\n" +
    "            Get-Module -ListAvailable |\n" +
    "            Select-Object Name, Version, ModuleType, Path |\n" +
    "            Sort-Object Name |\n" +
    "            ConvertTo-Json\n" +
    "          "

  /** get_command_help: the text before and after the caller's command, which goes in unquoted. */
  const HelpHead: string := "\n            $Help = Get-Help "
  const HelpTail: string :=
    " -Full\n" +
    "            $Output = [PSCustomObject]@{\n" +
    "              Name = $Help.Name\n" +
    "              Synopsis = $Help.Synopsis\n" +
    "              Syntax = $Help.Syntax | Out-String\n" +
    "              Description = $Help.Description | Out-String\n" +
    "              Parameters = $Help.Parameters.Parameter | ForEach-Object {\n" +
    "                [PSCustomObject]@{\n" +
    "                  Name = $_.Name\n" +
    "                  Type = $_.Type.Name\n" +
    "                  Required = $_.Required\n" +
    "                  Description = $_.Description | Out-String\n" +
    "                }\n" +
    "              }\n" +
    "              Examples = $Help.Examples.Example | ForEach-Object {\n" +
    "                [PSCustomObject]@{\n" +
    "                  Title = $_.Title\n" +
    "                  Code = $_.Code\n" +
    "                  Remarks = $_.Remarks | Out-String\n" +
    "                }\n" +
    "              }\n" +
    "            }\n" +
    "            ConvertTo-Json -InputObject $Output -Depth 5\n" +
    "          "

  /** find_commands: the search term goes between `"*` and `*"`. */
  const FindHead: string := "\n            Get-Command -Name "
  const WildOpen: string := "\"*"
  const WildClose: string := "*\""
  const FindTail: string :=
    " -ErrorAction SilentlyContinue |\n" +
    "            Select-Object Name, CommandType, Version, Source |\n" +
    "            Sort-Object Name |\n" +
    "            ConvertTo-Json\n" +
    "          "

  /** The tools that run an inline script through `-Command`. */
  predicate RunsInline(t: Tool)
  {
    !t.RunScript?
  }

  /** The script an inline tool submits: the caller's text, a fixed body, or a template with the caller's text spliced in. */
  function Script(t: Tool): string
    requires RunsInline(t)
  {
    match t
    case ExecutePs(command) => command
    case GetSystemInfo => SystemInfoScript
    case ListModules => ListModulesScript
    case GetCommandHelp(command) => HelpHead + command + HelpTail
    case FindCommands(search) => FindHead + WildOpen + search + WildClose + FindTail
  }

  /** The one command string a handler passes to the subprocess. */
  function BuildCommand(t: Tool): string
  {
    match t
    case RunScript(scriptPath, parameters) => FileCommandLine(scriptPath, parameters)
    case _ => CommandLine(Script(t))
  }

  /** Every inline tool's command line reads back to exactly the script it was built from. */
  lemma BuildCommandRoundTrip(t: Tool)
    requires RunsInline(t)
    ensures ExtractScript(BuildCommand(t)) == Some(Script(t))
  {
    CommandLineRoundTrip(Script(t));
  }

  /** get_command_help: the caller's command goes raw between `Get-Help ` and ` -Full` and is escaped with them. */
  lemma HelpCommandSplice(command: string)
    ensures BuildCommand(GetCommandHelp(command))
         == CommandPrefix + (Escape(HelpHead) + Escape(command) + Escape(HelpTail)) + [Quote]
  {
    var script := HelpHead + command + HelpTail;
    assert Script(GetCommandHelp(command)) == script;
    assert BuildCommand(GetCommandHelp(command)) == CommandLine(script);
    CommandLineSplice(HelpHead, command, HelpTail);
  }

  /** find_commands: the search term is escaped together with the `"*…*"` around it. */
  lemma FindCommandsSplice(search: string)
    ensures BuildCommand(FindCommands(search))
         == CommandPrefix
            + (Escape(FindHead) + [Backslash, Quote, '*'] + Escape(search) + ['*', Backslash, Quote] + Escape(FindTail))
            + [Quote]
  {
    var script := FindHead + WildOpen + search + WildClose + FindTail;
    assert Script(FindCommands(search)) == script;
    assert BuildCommand(FindCommands(search)) == CommandLine(script);
    CommandLineSplice5(FindHead, WildOpen, search, WildClose, FindTail);
    EscapeWildcards();
  }

  /** The quotes of the `"*…*"` wildcard are escaped like any other. */
  lemma EscapeWildcards()
    ensures Escape(WildOpen) == [Backslash, Quote, '*']
    ensures Escape(WildClose) == ['*', Backslash, Quote]
  {
    assert WildOpen == [Quote] + ['*'];
    assert WildClose == ['*'] + [Quote];
    EscapeAppend([Quote], ['*']);
    EscapeAppend(['*'], [Quote]);
  }
}
