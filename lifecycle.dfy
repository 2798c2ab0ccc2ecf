/**
  The bot lifecycle of worker.py:137-232: `start_bot`,
  `sort_bot_run_commands`, `reload_supervisord`, `stop_bot` and
  `restart_all_bots`, over a host made of the supervisord conf directory,
  the set of checkout directories under `/app`, and the ordered trace of
  external commands issued. The outcome of every external command comes
  from an injected oracle indexed by the command's position in the trace.
 */
module Lifecycle {
  import opened Validation
  import opened Naming
  import opened UnitFile

  /** An external command: an argument vector for `subprocess.run`, or a line for the shell. */
  datatype Command = Run(argv: seq<string>) | Shell(line: string)

  const Reread: Command := Shell("supervisorctl reread")
  const Update: Command := Shell("supervisorctl update")

  /** The host as the lifecycle sees it: unit files by name, bot checkouts by directory name, commands issued so far. */
  datatype HostState = HostState(confDir: map<string, string>, botDirs: set<string>, trace: seq<Command>)

  predicate AllHaveRequired(cs: seq<Cluster>) {
    forall i :: 0 <= i < |cs| ==> HasRequired(cs[i])
  }

  predicate AllHaveBotNumber(cs: seq<Cluster>) {
    forall i :: 0 <= i < |cs| ==> "bot_number" in cs[i].fields
  }

  /** `cluster.get('branch', 'main')`. */
  function Branch(c: Cluster): string {
    if "branch" in c.fields then c.fields["branch"] else "main"
  }

  function UnitOf(c: Cluster): string
    requires "bot_number" in c.fields
  {
    Sanitize(c.fields["bot_number"])
  }

  function UnitFileOf(c: Cluster): string
    requires "bot_number" in c.fields
  {
    UnitFileName(c.fields["bot_number"])
  }

  function CloneCommand(c: Cluster): Command
    requires HasRequired(c)
  {
    Run(["git", "clone", "-b", Branch(c), "--single-branch", c.fields["git_url"], BotDir(UnitOf(c))])
  }

  function VenvCommand(unit: string): Command {
    Run(["python3", "-m", "venv", BotDir(unit) + "/venv"])
  }

  function PipCommand(unit: string): Command {
    Run([BotDir(unit) + "/venv/bin/pip", "install", "--no-cache-dir", "-r", BotDir(unit) + "/requirements.txt"])
  }

  function StopCommand(unit: string): Command {
    Run(["supervisorctl", "stop", unit])
  }

  /** The unit file `start_bot` writes for a cluster; empty for a cluster without the required fields, which is never started. */
  function UnitContent(c: Cluster): string {
    if HasRequired(c) then Render(c.fields["bot_number"], LaunchCommand(UnitOf(c), c.fields["run_command"]), c.env) else ""
  }

  /** Provisioning succeeds: the clone issued at position n succeeds, and so do venv and pip after it when the checkout has requirements. */
  predicate Provisioned(c: Cluster, n: nat, exitOk: nat -> bool, hasRequirements: (string, string) -> bool)
    requires HasRequired(c)
  {
    exitOk(n) && (hasRequirements(c.fields["git_url"], Branch(c)) ==> exitOk(n + 1) && exitOk(n + 2))
  }

  /** The provisioning commands `start_bot` issues from trace position n: the clone, then venv and pip while they succeed. */
  function ProvisionCommands(c: Cluster, n: nat, exitOk: nat -> bool, hasRequirements: (string, string) -> bool): seq<Command>
    requires HasRequired(c)
  {
    [CloneCommand(c)] +
    if !exitOk(n) || !hasRequirements(c.fields["git_url"], Branch(c)) then []
    else if !exitOk(n + 1) then [VenvCommand(UnitOf(c))]
    else [VenvCommand(UnitOf(c)), PipCommand(UnitOf(c))]
  }

  /** The checkout half of `start_bot` (worker.py:150-164): drop any old checkout, clone, then venv and pip while they succeed. */
  function ProvisionEffect(st: HostState, c: Cluster, exitOk: nat -> bool, hasRequirements: (string, string) -> bool): HostState
    requires HasRequired(c)
  {
    var n := |st.trace|;
    st.(botDirs := (st.botDirs - {UnitOf(c)}) + (if exitOk(n) then {UnitOf(c)} else {}),
        trace := st.trace + ProvisionCommands(c, n, exitOk, hasRequirements))
  }

  /** What `start_bot` does to the host (worker.py:150-178), `content` being the unit text it renders for the cluster. */
  function StartEffect(st: HostState, c: Cluster, content: string, exitOk: nat -> bool, hasRequirements: (string, string) -> bool): HostState
    requires HasRequired(c)
  {
    var p := ProvisionEffect(st, c, exitOk, hasRequirements);
    if Provisioned(c, |st.trace|, exitOk, hasRequirements) then
      p.(confDir := p.confDir[UnitFileOf(c) := content], trace := p.trace + [Reread, Update])
    else p
  }

  /** What `stop_bot` does to the host (worker.py:210-225). */
  function StopEffect(st: HostState, botNumber: string): HostState {
    HostState(st.confDir - {UnitFileName(botNumber)}, st.botDirs, st.trace + [StopCommand(Sanitize(botNumber)), Reread, Update])
  }

  /** `sort_bot_run_commands`: `start_bot` on every cluster, in order, `render` giving the unit text written for each (UnitContent in the source). */
  function StartAll(st: HostState, cs: seq<Cluster>, exitOk: nat -> bool, hasRequirements: (string, string) -> bool, render: Cluster -> string): HostState
    requires AllHaveRequired(cs)
    decreases |cs|
  {
    if cs == [] then st else StartAll(StartEffect(st, cs[0], render(cs[0]), exitOk, hasRequirements), cs[1..], exitOk, hasRequirements, render)
  }

  /** The loop of `restart_all_bots`: `stop_bot` on every cluster, in order. */
  function StopAll(st: HostState, cs: seq<Cluster>): HostState
    requires AllHaveBotNumber(cs)
    decreases |cs|
  {
    if cs == [] then st else StopAll(StopEffect(st, cs[0].fields["bot_number"]), cs[1..])
  }

  /** `restart_all_bots`: stop every bot, then one more reload. */
  function RestartAll(st: HostState, cs: seq<Cluster>): HostState
    requires AllHaveBotNumber(cs)
  {
    var s := StopAll(st, cs);
    s.(trace := s.trace + [Reread, Update])
  }

  /** The commands the stop loop issues: stop, reread, update for each cluster in turn. */
  function StopTrace(cs: seq<Cluster>): seq<Command>
    requires AllHaveBotNumber(cs)
  {
    if cs == [] then [] else [StopCommand(UnitOf(cs[0])), Reread, Update] + StopTrace(cs[1..])
  }

  function UnitFiles(cs: seq<Cluster>): set<string>
    requires AllHaveBotNumber(cs)
  {
    set i | 0 <= i < |cs| :: UnitFileOf(cs[i])
  }

  // ----- start_bot -----

  /**
    The unit file is written, and supervisord reread and updated, exactly
    when provisioning succeeded; the conf directory is otherwise untouched,
    and no other unit file ever changes. The trace only grows, the clone
    comes first, and the reload comes last.
   */
  lemma StartSequencing(st: HostState, c: Cluster, content: string, exitOk: nat -> bool, hasRequirements: (string, string) -> bool)
    requires HasRequired(c)
    ensures var st' := StartEffect(st, c, content, exitOk, hasRequirements);
      var n := |st.trace|;
      var issued := st'.trace[n..];
      && st.trace <= st'.trace
      && issued != [] && issued[0] == CloneCommand(c)
      && (Provisioned(c, n, exitOk, hasRequirements) ==>
            st'.confDir == st.confDir[UnitFileOf(c) := content]
            && issued[|issued| - 2..] == [Reread, Update])
      && (!Provisioned(c, n, exitOk, hasRequirements) ==>
            st'.confDir == st.confDir && Reread !in issued && Update !in issued)
  {
  }

  /** start_bot touches no unit file but the cluster's own. */
  lemma StartKeepsOthers(st: HostState, c: Cluster, content: string, exitOk: nat -> bool, hasRequirements: (string, string) -> bool, u: string)
    requires HasRequired(c) && u != UnitFileOf(c)
    ensures var st' := StartEffect(st, c, content, exitOk, hasRequirements);
      (u in st'.confDir <==> u in st.confDir) && (u in st.confDir ==> st'.confDir[u] == st.confDir[u])
  {
  }

  /**
    A reload issued by start_bot always comes after a successful clone and,
    when the checkout has requirements, after a venv and a pip install that
    both succeeded.
   */
  lemma StartReloadFollowsProvisioning(st: HostState, c: Cluster, content: string, exitOk: nat -> bool, hasRequirements: (string, string) -> bool, k: nat)
    requires HasRequired(c)
    requires |st.trace| <= k < |StartEffect(st, c, content, exitOk, hasRequirements).trace|
    requires StartEffect(st, c, content, exitOk, hasRequirements).trace[k] == Reread
    ensures var t := StartEffect(st, c, content, exitOk, hasRequirements).trace; var n := |st.trace|;
      && t[n] == CloneCommand(c) && exitOk(n) && n < k
      && (hasRequirements(c.fields["git_url"], Branch(c)) ==>
            t[n + 1] == VenvCommand(UnitOf(c)) && exitOk(n + 1) && t[n + 2] == PipCommand(UnitOf(c)) && exitOk(n + 2) && n + 2 < k)
  {
    var st' := StartEffect(st, c, content, exitOk, hasRequirements);
    var n := |st.trace|;
    assert st'.trace[k] in st'.trace[n..];
    StartSequencing(st, c, content, exitOk, hasRequirements);
  }

  // ----- stop_bot -----

  /** Stopping a bot right after starting it leaves the conf directory as before, less any unit of that name. */
  lemma StopUndoesStart(st: HostState, c: Cluster, content: string, exitOk: nat -> bool, hasRequirements: (string, string) -> bool)
    requires HasRequired(c)
    ensures StopEffect(StartEffect(st, c, content, exitOk, hasRequirements), c.fields["bot_number"]).confDir == st.confDir - {UnitFileOf(c)}
  {
  }

  /** Stopping is idempotent on the conf directory, and a bot with no unit file still gets its stop and reload commands. */
  lemma StopIdempotent(st: HostState, botNumber: string)
    ensures StopEffect(StopEffect(st, botNumber), botNumber).confDir == StopEffect(st, botNumber).confDir
    ensures UnitFileName(botNumber) !in st.confDir ==>
      StopEffect(st, botNumber).confDir == st.confDir
      && StopEffect(st, botNumber).trace == st.trace + [StopCommand(Sanitize(botNumber)), Reread, Update]
  {
  }

  // ----- restart_all_bots -----

  /** Stopping the fleet removes exactly the fleet's unit files, keeps the checkouts, and issues stop, reread, update per bot in order. */
  lemma {:induction false} StopAllEffect(st: HostState, cs: seq<Cluster>)
    requires AllHaveBotNumber(cs)
    decreases |cs|
    ensures StopAll(st, cs).confDir == st.confDir - UnitFiles(cs)
    ensures StopAll(st, cs).botDirs == st.botDirs
    ensures StopAll(st, cs).trace == st.trace + StopTrace(cs)
  {
    if cs != [] {
      var st1 := StopEffect(st, cs[0].fields["bot_number"]);
      UnitFilesCons(cs);
      StopAllEffect(st1, cs[1..]);
      assert StopAll(st, cs) == StopAll(st1, cs[1..]);
      assert StopTrace(cs) == [StopCommand(UnitOf(cs[0])), Reread, Update] + StopTrace(cs[1..]);
    }
  }

  /** The fleet's unit files are the first bot's and those of the rest. */
  lemma UnitFilesCons(cs: seq<Cluster>)
    requires cs != [] && AllHaveBotNumber(cs)
    ensures AllHaveBotNumber(cs[1..])
    ensures UnitFiles(cs) == {UnitFileOf(cs[0])} + UnitFiles(cs[1..])
  {
    assert forall i :: 0 <= i < |cs| - 1 ==> cs[1..][i] == cs[i + 1];
    forall u | u in UnitFiles(cs) ensures u in {UnitFileOf(cs[0])} + UnitFiles(cs[1..]) {
      var i :| 0 <= i < |cs| && u == UnitFileOf(cs[i]);
      if i > 0 {
        assert cs[1..][i - 1] == cs[i];
      }
    }
  }

  /** restart_all_bots leaves none of the fleet's unit files and issues 3 commands per bot plus a final reread and update. */
  lemma RestartAllEffect(st: HostState, cs: seq<Cluster>)
    requires AllHaveBotNumber(cs)
    ensures RestartAll(st, cs).confDir == st.confDir - UnitFiles(cs)
    ensures RestartAll(st, cs).trace == st.trace + StopTrace(cs) + [Reread, Update]
    ensures |RestartAll(st, cs).trace| == |st.trace| + 3 * |cs| + 2
  {
    StopAllEffect(st, cs);
    StopTraceLength(cs);
  }

  lemma {:induction false} StopTraceLength(cs: seq<Cluster>)
    requires AllHaveBotNumber(cs)
    ensures |StopTrace(cs)| == 3 * |cs|
  {
    if cs != [] {
      StopTraceLength(cs[1..]);
    }
  }

  // ----- the fleet -----

  /** Sanitising keeps the bot suffix: spaces never take part in a `bot\d+$` match. */
  lemma SanitizeKeepsSuffix(s: string)
    ensures SuffixMatch(Sanitize(s)) == SuffixMatch(s)
  {
    var t := Sanitize(s);
    forall i, j
      ensures MatchesAt(t, i, j) <==> MatchesAt(s, i, j)
      ensures MatchesAt(s, i, j) ==> t[i..j] == s[i..j]
    {
      SanitizeKeepsMatch(s, t, i, j);
    }
    SameMatchesSameSuffix(s, t);
  }

  /** Sanitising touches no letter of `bot`, no digit and no newline, so it keeps every match of the pattern. */
  lemma SanitizeKeepsMatch(s: string, t: string, i: int, j: int)
    requires t == Sanitize(s)
    ensures MatchesAt(t, i, j) <==> MatchesAt(s, i, j)
    ensures MatchesAt(s, i, j) ==> t[i..j] == s[i..j]
  {
    if 0 <= i && i + 3 < j <= |s| {
      forall k | 0 <= k < |s|
        ensures IsDigit(t[k]) <==> IsDigit(s[k])
        ensures s[k] != ' ' ==> t[k] == s[k]
      {
      }
      assert BotAt(t, i) <==> BotAt(s, i);
      assert Dollar(t, j) <==> Dollar(s, j);
      if MatchesAt(s, i, j) {
        assert MatchesAt(t, i, j);
        forall k | i <= k < j
          ensures t[k] == s[k]
        {
          if k >= i + 3 {
            assert IsDigit(s[k]);
          } else if k == i {
            assert s[k] == 'b';
          } else if k == i + 1 {
            assert s[k] == 'o';
          } else {
            assert s[k] == 't';
          }
        }
        assert t[i..j] == s[i..j];
      }
    }
  }

  /**
    A valid batch never gives two bots the same unit file: distinct bot
    suffixes survive sanitisation, which is what the duplicate check is for.
   */
  lemma ValidConfigDistinctUnits(cs: seq<Cluster>)
    requires ValidConfig(cs)
    ensures forall i, j :: 0 <= i < j < |cs| ==> UnitFileOf(cs[i]) != UnitFileOf(cs[j])
  {
    forall i, j | 0 <= i < j < |cs| ensures UnitFileOf(cs[i]) != UnitFileOf(cs[j]) {
      var a, b := UnitOf(cs[i]), UnitOf(cs[j]);
      if a + ".conf" == b + ".conf" {
        assert a == (a + ".conf")[..|a|];
        assert b == (b + ".conf")[..|b|];
        SanitizeKeepsSuffix(cs[i].fields["bot_number"]);
        SanitizeKeepsSuffix(cs[j].fields["bot_number"]);
      }
    }
  }

  /** Starting bots whose unit files differ from `u` leaves `u` as it was. */
  lemma {:induction false} StartAllKeeps(st: HostState, cs: seq<Cluster>, exitOk: nat -> bool, hasRequirements: (string, string) -> bool, render: Cluster -> string, u: string)
    requires AllHaveRequired(cs)
    requires forall i :: 0 <= i < |cs| ==> UnitFileOf(cs[i]) != u
    decreases |cs|
    ensures var st' := StartAll(st, cs, exitOk, hasRequirements, render);
      (u in st'.confDir <==> u in st.confDir) && (u in st.confDir ==> st'.confDir[u] == st.confDir[u])
  {
    if cs != [] {
      StartKeepsOthers(st, cs[0], render(cs[0]), exitOk, hasRequirements, u);
      assert forall i :: 0 <= i < |cs| - 1 ==> cs[1..][i] == cs[i + 1];
      StartAllKeeps(StartEffect(st, cs[0], render(cs[0]), exitOk, hasRequirements), cs[1..], exitOk, hasRequirements, render, u);
    }
  }

  /**
    Starting a valid fleet in which every external command succeeds leaves
    every bot's own unit file in the conf directory: no bot overwrites
    another's.
   */
  lemma {:induction false} StartAllInstallsFleet(st: HostState, cs: seq<Cluster>, exitOk: nat -> bool, hasRequirements: (string, string) -> bool, render: Cluster -> string)
    requires ValidConfig(cs)
    requires forall n :: exitOk(n)
    decreases |cs|
    ensures AllHaveRequired(cs)
    ensures forall i :: 0 <= i < |cs| ==>
      UnitFileOf(cs[i]) in StartAll(st, cs, exitOk, hasRequirements, render).confDir
      && StartAll(st, cs, exitOk, hasRequirements, render).confDir[UnitFileOf(cs[i])] == render(cs[i])
  {
    if cs != [] {
      var c, rest := cs[0], cs[1..];
      var st1 := StartEffect(st, c, render(c), exitOk, hasRequirements);
      ValidConfigTail(cs);
      StartAllInstallsFleet(st1, rest, exitOk, hasRequirements, render);
      ValidConfigDistinctUnits(cs);
      assert forall i :: 0 <= i < |rest| ==> rest[i] == cs[i + 1];
      StartSequencing(st, c, render(c), exitOk, hasRequirements);
      StartAllKeeps(st1, rest, exitOk, hasRequirements, render, UnitFileOf(c));
      var fin := StartAll(st, cs, exitOk, hasRequirements, render);
      assert fin == StartAll(st1, rest, exitOk, hasRequirements, render);
      forall i | 0 <= i < |cs|
        ensures UnitFileOf(cs[i]) in fin.confDir && fin.confDir[UnitFileOf(cs[i])] == render(cs[i])
      {
        if i > 0 {
          assert cs[i] == rest[i - 1];
        }
      }
    }
  }

  /** Starting two batches one after the other is starting their concatenation. */
  lemma {:induction false} StartAllAppend(st: HostState, a: seq<Cluster>, b: seq<Cluster>, exitOk: nat -> bool, hasRequirements: (string, string) -> bool, render: Cluster -> string)
    requires AllHaveRequired(a) && AllHaveRequired(b)
    decreases |a|
    ensures AllHaveRequired(a + b)
    ensures StartAll(st, a + b, exitOk, hasRequirements, render) == StartAll(StartAll(st, a, exitOk, hasRequirements, render), b, exitOk, hasRequirements, render)
  {
    assert forall i :: 0 <= i < |a| ==> (a + b)[i] == a[i];
    assert forall i :: 0 <= i < |b| ==> (a + b)[|a| + i] == b[i];
    if a == [] {
      assert a + b == b;
    } else {
      var st1 := StartEffect(st, a[0], render(a[0]), exitOk, hasRequirements);
      assert (a + b)[1..] == a[1..] + b;
      assert forall i :: 0 <= i < |a| - 1 ==> a[1..][i] == a[i + 1];
      StartAllAppend(st1, a[1..], b, exitOk, hasRequirements, render);
    }
  }

  /** Starting a fleet is starting the bots before `i`, then bot `i`, then the rest. */
  lemma StartAllSplit(st: HostState, cs: seq<Cluster>, i: nat, exitOk: nat -> bool, hasRequirements: (string, string) -> bool, render: Cluster -> string)
    requires AllHaveRequired(cs) && i < |cs|
    ensures AllHaveRequired(cs[..i]) && AllHaveRequired(cs[i + 1..])
    ensures StartAll(st, cs, exitOk, hasRequirements, render) ==
      StartAll(StartEffect(StartAll(st, cs[..i], exitOk, hasRequirements, render), cs[i], render(cs[i]), exitOk, hasRequirements),
               cs[i + 1..], exitOk, hasRequirements, render)
  {
    var a, b := cs[..i], cs[i..];
    assert cs == a + b;
    assert forall j :: 0 <= j < |a| ==> a[j] == cs[j];
    assert forall j :: 0 <= j < |b| ==> b[j] == cs[i + j];
    var rest := cs[i + 1..];
    assert forall j :: 0 <= j < |rest| ==> rest[j] == cs[i + 1 + j];
    StartAllAppend(st, a, b, exitOk, hasRequirements, render);
    assert b[0] == cs[i] && b[1..] == cs[i + 1..];
  }

  /**
    Each bot of a valid fleet fares on its own: when its own clone (and venv
    and pip, given requirements) succeed at the trace position where its turn
    comes, its rendered unit file is installed at the end; when any of them
    fails, its unit file entry ends as it was before the fleet started, and
    the bots after it are started all the same.
   */
  lemma StartAllBotOutcome(st: HostState, cs: seq<Cluster>, i: nat, exitOk: nat -> bool, hasRequirements: (string, string) -> bool, render: Cluster -> string)
    requires ValidConfig(cs) && i < |cs|
    ensures AllHaveRequired(cs) && AllHaveRequired(cs[..i])
    ensures var n := |StartAll(st, cs[..i], exitOk, hasRequirements, render).trace|;
      var fin := StartAll(st, cs, exitOk, hasRequirements, render).confDir;
      var u := UnitFileOf(cs[i]);
      && (Provisioned(cs[i], n, exitOk, hasRequirements) ==> u in fin && fin[u] == render(cs[i]))
      && (!Provisioned(cs[i], n, exitOk, hasRequirements) ==>
            (u in fin <==> u in st.confDir) && (u in st.confDir ==> fin[u] == st.confDir[u]))
  {
    var c, u := cs[i], UnitFileOf(cs[i]);
    StartAllSplit(st, cs, i, exitOk, hasRequirements, render);
    OtherUnits(cs, i, cs[..i], cs[i + 1..]);
    var mid := StartAll(st, cs[..i], exitOk, hasRequirements, render);
    StartAllKeeps(st, cs[..i], exitOk, hasRequirements, render, u);
    var st2 := StartEffect(mid, c, render(c), exitOk, hasRequirements);
    StartSequencing(mid, c, render(c), exitOk, hasRequirements);
    StartAllKeeps(st2, cs[i + 1..], exitOk, hasRequirements, render, u);
  }

  /** In a valid fleet, no bot before or after bot `i` has its unit file name. */
  lemma OtherUnits(cs: seq<Cluster>, i: nat, before: seq<Cluster>, after: seq<Cluster>)
    requires ValidConfig(cs) && i < |cs| && before == cs[..i] && after == cs[i + 1..]
    ensures AllHaveRequired(before) && AllHaveRequired(after)
    ensures forall j :: 0 <= j < |before| ==> UnitFileOf(before[j]) != UnitFileOf(cs[i])
    ensures forall j :: 0 <= j < |after| ==> UnitFileOf(after[j]) != UnitFileOf(cs[i])
  {
    ValidConfigDistinctUnits(cs);
    assert forall j :: 0 <= j < |before| ==> before[j] == cs[j];
    assert forall j :: 0 <= j < |after| ==> after[j] == cs[i + 1 + j];
  }

  /** The host, whose conf directory, checkouts and command trace the lifecycle methods update in place. */
  class Host {
    var confDir: map<string, string>
    var botDirs: set<string>
    var trace: seq<Command>
    /** Whether the external command at a given position of the trace exits with status 0. */
    const exitOk: nat -> bool
    /** Whether a checkout of (git_url, branch) holds a `requirements.txt`. */
    const hasRequirements: (string, string) -> bool

    function State(): HostState
      reads this
    {
      HostState(confDir, botDirs, trace)
    }

    constructor (confDir: map<string, string>, botDirs: set<string>, exitOk: nat -> bool, hasRequirements: (string, string) -> bool)
      ensures State() == HostState(confDir, botDirs, [])
      ensures this.exitOk == exitOk && this.hasRequirements == hasRequirements
    {
      this.confDir := confDir;
      this.botDirs := botDirs;
      this.trace := [];
      this.exitOk := exitOk;
      this.hasRequirements := hasRequirements;
    }

    /** Runs one external command, appending it to the trace; says whether it exited with status 0. */
    method Execute(cmd: Command) returns (ok: bool)
      modifies this
      ensures ok == exitOk(|old(trace)|)
      ensures State() == old(State()).(trace := old(trace) + [cmd])
    {
      ok := exitOk(|trace|);
      trace := trace + [cmd];
    }

    /** `reload_supervisord`: reread then update; failures are only logged. */
    method ReloadSupervisord()
      modifies this
      ensures State() == old(State()).(trace := old(trace) + [Reread, Update])
    {
      var rereadOk := Execute(Reread);
      var updateOk := Execute(Update);
    }

    /** `write_supervisord_config`: overwrite the bot's unit file and change nothing else. */
    method WriteSupervisordConfig(c: Cluster, command: string)
      requires "bot_number" in c.fields
      modifies this
      ensures State() == old(State()).(confDir := old(confDir)[UnitFileOf(c) := Render(c.fields["bot_number"], command, c.env)])
    {
      confDir := confDir[UnitFileOf(c) := Render(c.fields["bot_number"], command, c.env)];
    }

    /** Lines 150-164 of `start_bot`: prepare the checkout; says whether it is ready to run. */
    method Provision(c: Cluster) returns (ok: bool)
      requires HasRequired(c)
      modifies this
      ensures ok == Provisioned(c, |old(trace)|, exitOk, hasRequirements)
      ensures State() == ProvisionEffect(old(State()), c, exitOk, hasRequirements)
    {
      ghost var st0 := State();
      ghost var n := |trace|;
      var unit := UnitOf(c);
      if unit in botDirs {
        botDirs := botDirs - {unit};
      }
      ok := Execute(CloneCommand(c));
      if !ok {
        assert ProvisionCommands(c, n, exitOk, hasRequirements) == [CloneCommand(c)];
        return;
      }
      botDirs := botDirs + {unit};
      if hasRequirements(c.fields["git_url"], Branch(c)) {
        ok := Execute(VenvCommand(unit));
        if !ok {
          assert ProvisionCommands(c, n, exitOk, hasRequirements) == [CloneCommand(c), VenvCommand(unit)];
          return;
        }
        ok := Execute(PipCommand(unit));
        assert ProvisionCommands(c, n, exitOk, hasRequirements) == [CloneCommand(c), VenvCommand(unit), PipCommand(unit)];
      }
    }

    /** `start_bot`. */
    method StartBot(c: Cluster)
      requires HasRequired(c)
      modifies this
      ensures State() == StartEffect(old(State()), c, UnitContent(c), exitOk, hasRequirements)
    {
      var ready := Provision(c);
      if !ready {
        return;
      }
      var command := LaunchCommand(UnitOf(c), c.fields["run_command"]);
      WriteSupervisordConfig(c, command);
      ReloadSupervisord();
    }

    /** `sort_bot_run_commands`: both of its branches call `start_bot`, so it starts every cluster in order. */
    method SortBotRunCommands(cs: seq<Cluster>)
      requires AllHaveRequired(cs)
      modifies this
      ensures State() == StartAll(old(State()), cs, exitOk, hasRequirements, UnitContent)
    {
      for i := 0 to |cs|
        invariant StartAll(State(), cs[i..], exitOk, hasRequirements, UnitContent) == StartAll(old(State()), cs, exitOk, hasRequirements, UnitContent)
      {
        assert cs[i..][1..] == cs[i + 1..];
        StartBot(cs[i]);
      }
    }

    /** `stop_bot`: stop the program (its exit status is not checked), drop its unit file if present, reload. */
    method StopBot(botNumber: string)
      modifies this
      ensures State() == StopEffect(old(State()), botNumber)
    {
      var unit := Sanitize(botNumber);
      var stopped := Execute(StopCommand(unit));
      var file := UnitFileName(botNumber);
      if file in confDir {
        confDir := confDir - {file};
      }
      ReloadSupervisord();
    }

    /** `restart_all_bots`. */
    method RestartAllBots(cs: seq<Cluster>)
      requires AllHaveBotNumber(cs)
      modifies this
      ensures State() == RestartAll(old(State()), cs)
    {
      for i := 0 to |cs|
        invariant StopAll(State(), cs[i..]) == StopAll(old(State()), cs)
      {
        assert cs[i..][1..] == cs[i + 1..];
        StopBot(cs[i].fields["bot_number"]);
      }
      ReloadSupervisord();
    }
  }
}
