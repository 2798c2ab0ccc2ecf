/**
  `write_supervisord_config` (worker.py:115-135): the supervisord program
  section rendered for one bot, and where it is written.
 */
module UnitFile {
  import opened Text
  import opened Naming

  /** The directory supervisord watches; unit files are keyed by their name inside it. */
  const ConfDir := "/etc/supervisor/conf.d"

  /** The separator between rendered lines: a newline and the template's four-space indentation. */
  const Indent := "\n    "

  /** The unit file's name inside ConfDir: the sanitised bot number with `.conf`. */
  function UnitFileName(botNumber: string): string {
    Sanitize(botNumber) + ".conf"
  }

  /** `f'{key}="{value}"'`. */
  function Assignment(kv: (string, string)): string {
    kv.0 + "=\"" + kv.1 + "\""
  }

  function Assignments(env: seq<(string, string)>): seq<string> {
    seq(|env|, i requires 0 <= i < |env| => Assignment(env[i]))
  }

  /** `','.join(...) if cluster['env'] else ""`. */
  function EnvVars(env: seq<(string, string)>): string {
    if env != [] then Join(",", Assignments(env)) else ""
  }

  /** The eight fixed lines of the template. */
  function FixedLines(program: string, command: string): seq<string> {
    [ "[program:" + program + "]",
      "command=" + command,
      "directory=/app/" + program,
      "autostart=true",
      "autorestart=true",
      "startretries=5",
      "stderr_logfile=/var/log/supervisor/" + program + "_err.log",
      "stdout_logfile=/var/log/supervisor/" + program + "_out.log" ]
  }

  /** `{f"environment={env_vars}" if env_vars else ""}`. */
  function EnvLine(envVars: string): string {
    if envVars != "" then "environment=" + envVars else ""
  }

  /** Template lines as the triple-quoted string holds them: four spaces, the text, a newline. */
  function Block(lines: seq<string>): string {
    if lines == [] then "" else "    " + lines[0] + "\n" + Block(lines[1..])
  }

  /**
    The f-string before `.strip()`: an opening newline, the eight fixed lines
    and the environment line (empty when there is no env), and the closing
    four spaces.
   */
  function ConfigContent(program: string, command: string, envVars: string): string {
    "\n" + Block(FixedLines(program, command) + [EnvLine(envVars)]) + "    "
  }

  /** The text written to the unit file. */
  function Render(botNumber: string, command: string, env: seq<(string, string)>): string {
    Strip(ConfigContent(Sanitize(botNumber), command, EnvVars(env)))
  }

  /** The lines of a rendered unit; the environment line is there exactly when env is non-empty. */
  function Layout(program: string, command: string, env: seq<(string, string)>): seq<string> {
    FixedLines(program, command) + (if env == [] then [] else ["environment=" + EnvVars(env)])
  }

  /** The environment assignments are empty exactly when env is, and otherwise end with a closing quote. */
  lemma EnvVarsShape(env: seq<(string, string)>)
    ensures EnvVars(env) == "" <==> env == []
    ensures env != [] ==> EnvVars(env)[|EnvVars(env)| - 1] == '"'
  {
    if env != [] {
      var parts := Assignments(env);
      forall i | 0 <= i < |parts| ensures parts[i] != [] && parts[i][|parts[i]| - 1] == '"' {
        assert parts[i] == Assignment(env[i]);
      }
      JoinEndsWith(",", parts, '"');
    }
  }

  /** A block of lines is the lines joined by Indent, between four spaces and a newline. */
  lemma {:induction false} BlockIsJoin(lines: seq<string>)
    requires lines != []
    ensures Block(lines) == "    " + Join(Indent, lines) + "\n"
  {
    if |lines| == 1 {
      assert Block(lines[1..]) == "";
    } else {
      BlockIsJoin(lines[1..]);
      assert "\n" + "    " == Indent;
    }
  }

  lemma BlockSnoc(lines: seq<string>, x: string)
    requires lines != []
    ensures Block(lines + [x]) == "    " + Join(Indent, lines) + Indent + x + "\n"
  {
    BlockIsJoin(lines + [x]);
    JoinSnoc(Indent, lines, x);
  }

  /** The joined fixed lines begin with `[` and end with the `g` of `_out.log`. */
  lemma FixedEnds(program: string, command: string)
    ensures var j := Join(Indent, FixedLines(program, command)); j != [] && j[0] == '[' && j[|j| - 1] == 'g'
  {
    var fixed := FixedLines(program, command);
    JoinStartsWith(Indent, fixed);
    assert fixed == fixed[..7] + [fixed[7]];
    JoinSnoc(Indent, fixed[..7], fixed[7]);
  }

  /** A block with a last line appended, between an opening newline and a closing four spaces, reads as Indent-separated text. */
  lemma FramedBlock(lines: seq<string>, x: string)
    requires lines != []
    ensures "\n" + Block(lines + [x]) + "    " == Indent + Join(Indent, lines) + Indent + x + Indent
  {
    BlockSnoc(lines, x);
    assert "\n" + "    " == Indent;
  }

  /** The raw template: an Indent, the joined fixed lines, an Indent, the environment line, a final Indent. */
  lemma RawShape(program: string, command: string, envVars: string)
    ensures ConfigContent(program, command, envVars) ==
      Indent + Join(Indent, FixedLines(program, command)) + Indent + EnvLine(envVars) + Indent
  {
    FramedBlock(FixedLines(program, command), EnvLine(envVars));
  }

  /**
    Stripping the raw template over its joined fixed lines `j` and its
    environment line `e`: the surrounding indentation goes, and so does the
    Indent before an empty environment line.
   */
  lemma StripRaw(j: string, e: string)
    requires j != [] && j[0] == '[' && j[|j| - 1] == 'g'
    requires e == "" || e[|e| - 1] == '"'
    ensures Strip(Indent + j + Indent + e + Indent) == if e == "" then j else j + Indent + e
  {
    assert AllSpace(Indent);
    if e == "" {
      assert Indent + j + Indent + e + Indent == Indent + j + (Indent + Indent);
      StripAround(Indent, j, Indent + Indent);
    } else {
      var m := j + Indent + e;
      assert m[|m| - 1] == '"';
      assert Indent + j + Indent + e + Indent == Indent + m + Indent;
      StripAround(Indent, m, Indent);
    }
  }

  /**
    After `.strip()` the unit is its lines joined by a newline and four
    spaces: the first line starts at column zero, every later line keeps the
    template's indentation, and nothing precedes or follows them.
   */
  lemma RenderLayout(botNumber: string, command: string, env: seq<(string, string)>)
    ensures Render(botNumber, command, env) == Join(Indent, Layout(Sanitize(botNumber), command, env))
  {
    var p := Sanitize(botNumber);
    var fixed := FixedLines(p, command);
    var e := EnvLine(EnvVars(env));
    EnvVarsShape(env);
    FixedEnds(p, command);
    RawShape(p, command, EnvVars(env));
    StripRaw(Join(Indent, fixed), e);
    if env == [] {
      assert Layout(p, command, env) == fixed + [];
      assert fixed + [] == fixed;
    } else {
      JoinSnoc(Indent, fixed, e);
    }
  }
}
