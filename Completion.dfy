/** Shell selection for completion scripts
    (completion/CompletionExtensions.kt, `generateCompletion`). */
module Completion {
  import opened Strings
  import opened App
  import BashCompletion
  import ZshCompletion
  import PowerShellCompletion

  /** The generated script, or the `IllegalArgumentException` raised for a
      shell with no generator, with its message. */
  datatype Generated = Script(text: string) | Unsupported(message: string)

  const SupportedShells: seq<string> := ["bash", "zsh", "powershell"]

  /** `app.generateCompletion(shell = "bash")`. */
  function GenerateCompletion(app: CliApp, shell: string := "bash"): (r: Generated)
    ensures r.Unsupported? <==> Lower(shell) !in SupportedShells
    ensures r.Unsupported? ==> r.message == "Unsupported shell: " + shell
  {
    var selected := Lower(shell);
    if selected == "bash" then Script(BashCompletion.Generate(app))
    else if selected == "zsh" then Script(ZshCompletion.Generate(app))
    else if selected == "powershell" then Script(PowerShellCompletion.Generate(app))
    else Unsupported("Unsupported shell: " + shell)
  }

  // ---------------------------------------------------------------------
  // Properties

  /** Spellings of a shell name that differ only in letter case select the
      same script. */
  lemma SelectionIgnoresCase(app: CliApp, a: string, b: string)
    requires Lower(a) == Lower(b)
    ensures GenerateCompletion(app, a).Script? <==> GenerateCompletion(app, b).Script?
    ensures GenerateCompletion(app, a).Script? ==> GenerateCompletion(app, a) == GenerateCompletion(app, b)
  {
  }

  /** The result is the selected generator's script. */
  lemma BashSelected(app: CliApp, shell: string)
    requires Lower(shell) == "bash"
    ensures GenerateCompletion(app, shell) == Script(BashCompletion.Generate(app))
  {
  }

  lemma ZshSelected(app: CliApp, shell: string)
    requires Lower(shell) == "zsh"
    ensures GenerateCompletion(app, shell) == Script(ZshCompletion.Generate(app))
  {
  }

  lemma PowerShellSelected(app: CliApp, shell: string)
    requires Lower(shell) == "powershell"
    ensures GenerateCompletion(app, shell) == Script(PowerShellCompletion.Generate(app))
  {
  }

  /** Without a shell the bash script is generated; `BASH`, `Zsh` and
      `PowerShell` are accepted. */
  lemma DefaultIsBash(app: CliApp)
    ensures GenerateCompletion(app) == Script(BashCompletion.Generate(app))
  {
    assert Lower("bash") == "bash";
    BashSelected(app, "bash");
  }

  lemma UpperCaseBash(app: CliApp)
    ensures GenerateCompletion(app, "BASH") == Script(BashCompletion.Generate(app))
  {
    assert Lower("BASH") == "bash";
    BashSelected(app, "BASH");
  }

  lemma CapitalisedZsh(app: CliApp)
    ensures GenerateCompletion(app, "Zsh") == Script(ZshCompletion.Generate(app))
  {
    assert Lower("Zsh") == "zsh";
    ZshSelected(app, "Zsh");
  }

  lemma CamelCasePowerShell(app: CliApp)
    ensures GenerateCompletion(app, "PowerShell") == Script(PowerShellCompletion.Generate(app))
  {
    assert Lower("PowerShell") == "powershell";
    PowerShellSelected(app, "PowerShell");
  }

  /** Any other shell is refused with a message naming it. */
  lemma UnsupportedShellNamed(app: CliApp, shell: string)
    requires Lower(shell) !in SupportedShells
    ensures GenerateCompletion(app, shell).Unsupported?
    ensures Occurs("Unsupported shell", GenerateCompletion(app, shell).message)
    ensures EndsWith(GenerateCompletion(app, shell).message, shell)
  {
    OccursAtStart("Unsupported shell", ": " + shell);
    assert "Unsupported shell: " + shell == "Unsupported shell" + (": " + shell);
  }

  /** `fish` is one such shell. */
  lemma FishUnsupported(app: CliApp)
    ensures GenerateCompletion(app, "fish") == Unsupported("Unsupported shell: fish")
  {
    assert Lower("fish") == "fish";
    assert "fish" != "bash" && "fish" != "zsh" && "fish" != "powershell";
  }
}
