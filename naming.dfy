/**
  How a bot's identity turns into names on disk (worker.py): the space to
  underscore sanitisation of `bot_number`, the per-bot paths under `/app`,
  the `pathlib` suffix and stem of the run command, and the three-way choice
  of launch command made in `start_bot`.
 */
module Naming {
  import opened Text

  /** `s.replace(" ", "_")`: every space becomes an underscore, every other character stays where it is. */
  function Sanitize(s: string): (r: string)
    ensures |r| == |s|
    ensures forall i :: 0 <= i < |s| ==> r[i] == if s[i] == ' ' then '_' else s[i]
  {
    if s == [] then [] else [if s[0] == ' ' then '_' else s[0]] + Sanitize(s[1..])
  }

  /** A sanitised name has no space left, so sanitising it again changes nothing. */
  lemma SanitizeIdempotent(s: string)
    ensures ' ' !in Sanitize(s)
    ensures Sanitize(Sanitize(s)) == Sanitize(s)
  {
  }

  /** The last component of a '/'-separated path, as `PurePath.name` gives it for a path without trailing '/'. */
  function BaseName(path: string): string {
    path[LastIndexOf(path, '/') + 1..]
  }

  /** `PurePath.suffix`: from the last '.' on, provided that dot is neither the first nor the last character. */
  function PathSuffix(name: string): string {
    var i := LastIndexOf(name, '.');
    if 0 < i < |name| - 1 then name[i..] else ""
  }

  /** `PurePath.stem`: the name without its suffix. */
  function PathStem(name: string): string {
    var i := LastIndexOf(name, '.');
    if 0 < i < |name| - 1 then name[..i] else name
  }

  /** Stem and suffix split the name; a non-empty suffix is a dot followed by at least one character, after a non-empty stem. */
  lemma StemAndSuffix(name: string)
    ensures PathStem(name) + PathSuffix(name) == name
    ensures PathSuffix(name) == "" || (|PathSuffix(name)| >= 2 && PathSuffix(name)[0] == '.' && PathStem(name) != "")
  {
  }

  /** A name has suffix `.ext` exactly when it ends with `.ext` and has something before that dot. */
  lemma SuffixIsExtension(name: string, ext: string)
    requires ext != [] && '.' !in ext
    ensures PathSuffix(name) == "." + ext <==> |name| > |ext| + 1 && EndsWith(name, "." + ext)
  {
    var x := "." + ext;
    var i := LastIndexOf(name, '.');
    if |name| > |x| && EndsWith(name, x) {
      var k := |name| - |x|;
      assert name[k..] == x;
      assert name[k] == '.';
      forall j | k < j < |name| ensures name[j] != '.' {
        assert name[j] == x[j - k] == ext[j - k - 1];
      }
      LastIndexOfUnique(name, '.', k);
    }
    if PathSuffix(name) == x {
      assert 0 < i < |name| - 1 && name[i..] == x;
    }
  }

  /** `Path('/app') / unit`: the bot's checkout directory. */
  function BotDir(unit: string): string {
    "/app/" + unit
  }

  /** `venv_dir / 'bin' / 'python3'`: the interpreter of the bot's isolated environment. */
  function VenvPython(unit: string): string {
    BotDir(unit) + "/venv/bin/python3"
  }

  /** `bot_dir / run_command`. */
  function BotFile(unit: string, runCommand: string): string {
    BotDir(unit) + "/" + runCommand
  }

  /** The launch command `start_bot` chooses (worker.py:166-171). */
  function LaunchCommand(unit: string, runCommand: string): string {
    var file := BotFile(unit, runCommand);
    var name := BaseName(file);
    if PathSuffix(name) == ".sh" then "bash " + file
    else if PathSuffix(name) == ".py" then VenvPython(unit) + " " + file
    else VenvPython(unit) + " -m " + PathStem(name)
  }

  /** Joining under a directory does not change the last component of a non-empty relative path. */
  lemma BaseNameUnder(dir: string, runCommand: string)
    requires runCommand != []
    ensures BaseName(dir + "/" + runCommand) == BaseName(runCommand)
  {
    var a := dir + "/";
    assert dir + "/" + runCommand == a + runCommand;
    LastIndexOfAppend(a, runCommand, '/');
    if '/' !in runCommand {
      LastIndexOfUnique(a, '/', |a| - 1);
      LastIndexOfAbsent(runCommand, '/');
      assert (a + runCommand)[|a|..] == runCommand;
    } else {
      var l := LastIndexOf(runCommand, '/');
      assert (a + runCommand)[|a| + l + 1..] == runCommand[l + 1..];
    }
  }

  /**
    The dispatch on the run command's file name: `.sh` runs under bash, `.py`
    under the bot's venv interpreter, anything else as a module of that
    interpreter, named by the file's stem. The venv path is used whether or
    not a venv was ever created.
   */
  lemma LaunchDispatch(unit: string, runCommand: string)
    requires runCommand != []
    ensures var name := BaseName(runCommand);
      && (|name| > 3 && EndsWith(name, ".sh") ==>
            LaunchCommand(unit, runCommand) == "bash " + BotFile(unit, runCommand))
      && (|name| > 3 && EndsWith(name, ".py") ==>
            LaunchCommand(unit, runCommand) == VenvPython(unit) + " " + BotFile(unit, runCommand))
      && (!(|name| > 3 && (EndsWith(name, ".sh") || EndsWith(name, ".py"))) ==>
            LaunchCommand(unit, runCommand) == VenvPython(unit) + " -m " + PathStem(name))
  {
    BaseNameUnder(BotDir(unit), runCommand);
    var name := BaseName(runCommand);
    assert "." + "sh" == ".sh";
    assert "." + "py" == ".py";
    SuffixIsExtension(name, "sh");
    SuffixIsExtension(name, "py");
  }
}
