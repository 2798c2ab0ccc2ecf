# BotClusters worker: a verified model of the fleet lifecycle core

BotClusters' `worker.py` runs a fleet of bots under supervisord. It does four things:

- It reads a list of cluster names from a configuration document.
- It looks up each cluster's details, a JSON list held in an environment variable, and turns every usable list into a resolved bot record with a generated two-word prefix.
- It checks the resolved batch: required keys, an `http` git URL, a `bot<digits>` suffix on every bot number, and no suffix used twice.
- It provisions each bot and installs a supervisord program section for it. Provisioning is a fresh `git clone`, plus a venv and `pip install` when the checkout has a `requirements.txt`. The launch command in the program section depends on the run command's file type. Stopping or restarting bots removes their sections, and every change is followed by `supervisorctl reread` and `update`.

This project models that core in Dafny and proves what the code promises about it. The modules are:

- `Wrappers`: `Option` and `Result`.
- `Text`: Python string operations: `startswith`, `endswith`, `strip()` with Python's whitespace set and `','.join`, which the source calls, and the `rfind` that pathlib's `suffix` and `stem` perform internally.
- `Naming`:
  - the `bot_number.replace(" ", "_")` sanitisation;
  - the per-bot paths under `/app`;
  - pathlib's `suffix` and `stem`;
  - the three-way launch-command choice of `start_bot`.
- `Validation`:
  - `validate_config` as a fail-fast loop with its set of seen suffixes, proved against a reference predicate `ValidConfig`;
  - the regular expression `bot\d+$` as Python's `re.search` reads it, including `$` before a final newline.
- `Loader`: the resolution loop of `load_config`, proved against the recursive reference `Resolve`, followed by the validation and the configuration error.
- `UnitFile`: the text `write_supervisord_config` writes, as the source's template followed by `.strip()`, and the line layout proved about it.
- `Lifecycle`:
  - a `Host` class whose fields are the conf directory (unit file name to content), the set of checkout directories and the ordered trace of external commands;
  - the methods of `start_bot`, `sort_bot_run_commands`, `reload_supervisord`, `stop_bot` and `restart_all_bots`, each proved equal to a function of the old state;
  - lemmas about those functions: ordering, what each operation leaves untouched, and what the fleet operations do as a whole.

How external effects are modelled:

- External commands are recorded in the trace. Whether a command exits with status 0 comes from an injected oracle, indexed by the command's position in the trace.
- Whether a checkout has a `requirements.txt` is a second oracle, keyed by the git URL and branch.
- The generated prefixes are an input sequence.

Three behaviours of the code worth stating:

- The prefix is generated once per surviving cluster, inside the loop of `load_config` (worker.py:91). It is not generated once per load and shared by the whole batch. `Loader.ResolveShape` states that the k-th survivor takes the k-th prefix.
- The git URL check is the literal four-letter prefix `http` (worker.py:51), not a check for an HTTP(S) scheme. `httpx` passes and `ftp://` fails (`Validation.GitUrlScheme`).
- A reload is not always preceded by a unit-file change. `stop_bot` reloads even when there was no unit file to delete (worker.py:222-225). `restart_all_bots` reloads after every stop and then once more (worker.py:230-232).

## Model

| member | source | states |
|---|---|---|
| Naming.Sanitize | worker.py:117 | The sanitised name has the same length; every space becomes `_` and every other character stays in place |
| Naming.SanitizeIdempotent | worker.py:143 | A sanitised name has no space, and sanitising it again changes nothing |
| Naming.StemAndSuffix | worker.py:166-171 | Stem followed by suffix is the whole name; a non-empty suffix is a dot and at least one more character, after a non-empty stem |
| Naming.SuffixIsExtension | worker.py:166-168 | For an extension without a dot, the pathlib suffix equals `.ext` exactly when the name ends with `.ext` and has at least one character before that dot |
| Naming.BaseNameUnder | worker.py:146 | Joining a non-empty relative run command under the bot directory keeps its last path component |
| Naming.LaunchDispatch | worker.py:166-171 | A file name ending in `.sh` (with something before it) runs as `bash /app/S/<run_command>`; one ending in `.py` runs as `/app/S/venv/bin/python3 /app/S/<run_command>`; anything else runs as `/app/S/venv/bin/python3 -m <stem>`, whether or not a venv exists |
| Text.StripAround | worker.py:134 | `strip()` removes whitespace on both sides and keeps a middle that starts and ends with non-space characters |
| Validation.SuffixMatchIsSearch | worker.py:44-60 | A found suffix is a match of `bot\d+$` ending at the text's end or before a final newline; whenever the pattern matches anywhere, the search finds exactly that match's text |
| Validation.Check | worker.py:47-63 | A cluster passes exactly when it has the four required keys, an `http` git URL and a suffix not already seen |
| Validation.ValidConfigSnoc | worker.py:46-65 | A valid batch stays valid with one more cluster exactly when that cluster passes the checks against the suffixes seen so far |
| Validation.ValidateConfig | worker.py:40-68 | The result is true exactly when every cluster is well formed and the suffixes are pairwise distinct; on failure it names the first failing cluster: every earlier one passed, and this one fails with the given reason |
| Validation.PrefixInvalid | worker.py:46-63 | One invalid prefix of the batch makes the whole batch invalid, so stopping at the first violation loses nothing |
| Validation.GitUrlScheme | worker.py:51-53 | `ftp://example.com/repo` fails the URL check; `https://...` and `httpx` pass |
| Validation.FtpUrlRejected | worker.py:51-53 | Any batch with a cluster whose git URL is `ftp://example.com/repo` is invalid |
| Validation.SuffixOfPrefixedNumbers | worker.py:55-60 | The suffixes of `a b bot1` and `c d bot1` are both `bot1` |
| Validation.SuffixBeforeFinalNewline | worker.py:44 | The suffix of `x y bot12` followed by a newline is `bot12` |
| Validation.NoSuffixWithoutTrailingDigits | worker.py:55-58 | `x y bot` and `x y bot1a` have no suffix |
| Validation.DuplicateSuffixRejected | worker.py:60-63 | Clusters with bot numbers `a b bot1` and `c d bot1` are rejected together, whatever else they hold |
| Loader.SurvivorsMembers | worker.py:82-89 | A cluster name survives exactly when it is in the document and its details are a list of at least four elements |
| Loader.SurvivorsAppend | worker.py:82-89 | Survival is decided cluster by cluster: the survivors of two concatenated documents are the survivors of each, in order |
| Loader.ResolveShape | worker.py:81-101 | There is one resolved record per survivor, in document order, and the k-th is built from the k-th survivor with the k-th prefix |
| Loader.ResolvedFields | worker.py:91-101 | Each resolved record has `name = p + " " + name` and `bot_number = p + " " + details[0]`, takes git_url, branch and run_command from details 1-3, and takes env from details[4] only when a fifth element exists and is an object |
| Loader.ResolveSnoc | worker.py:94-101 | One more cluster in the document appends its record, with the next unused prefix, exactly when it survives |
| Loader.SkipIsolation | worker.py:83-105 | Inserting a skipped cluster (missing variable, not a list, too short, undecodable) anywhere changes no other record |
| Loader.LoadConfig | worker.py:70-110 | An unreadable document gives the empty list; otherwise the result is the resolved list when it validates, and the configuration error when it does not |
| UnitFile.EnvVarsShape | worker.py:120 | The environment assignments are empty exactly when env is empty, and otherwise end with a closing quote |
| UnitFile.RenderLayout | worker.py:122-134 | The written text consists of the lines `[program:S]`, `command=...`, `directory=/app/S`, `autostart=true`, `autorestart=true`, `startretries=5`, `stderr_logfile` and `stdout_logfile` under `/var/log/supervisor/S`, plus `environment=...` exactly when env is non-empty. The first line starts at column 0, each later line keeps its four-space indentation, and nothing comes before or after |
| Lifecycle.StartSequencing | worker.py:150-178 | start_bot only appends to the trace, and its first command is the clone. When provisioning succeeds, it writes the unit file and ends with reread then update. When any command fails, the conf directory is unchanged and no reload is issued |
| Lifecycle.StartKeepsOthers | worker.py:117-134 | start_bot touches no unit file except the cluster's own |
| Lifecycle.StartReloadFollowsProvisioning | worker.py:156-174 | A reread issued by start_bot comes after a successful clone and, when there are requirements, after a venv and a pip install that both succeeded |
| Lifecycle.StopUndoesStart | worker.py:210-225 | Stopping a bot right after starting it leaves the conf directory as before, minus that bot's unit file |
| Lifecycle.StopIdempotent | worker.py:221-225 | A second stop does not change the conf directory; stopping a bot with no unit file still issues stop, reread and update |
| Lifecycle.StopAllEffect | worker.py:230-231 | Stopping the fleet removes exactly the fleet's unit files, keeps the checkouts, and issues stop, reread, update per bot in order |
| Lifecycle.RestartAllEffect | worker.py:227-232 | restart_all_bots removes the fleet's unit files and issues three commands per bot, then one more reread and update |
| Lifecycle.SanitizeKeepsSuffix | worker.py:117 | Sanitising a bot number keeps its `bot\d+$` suffix |
| Lifecycle.ValidConfigDistinctUnits | worker.py:61-63 | In a valid batch no two bots share a unit file name |
| Lifecycle.StartAllKeeps | worker.py:180-189 | Starting bots whose unit file names differ from `u` leaves `u` as it was |
| Lifecycle.StartAllAppend | worker.py:182-189 | Starting two batches one after the other gives the same host as starting their concatenation |
| Lifecycle.StartAllSplit | worker.py:182-189 | Starting a fleet is starting the bots before bot `i`, then bot `i` on the resulting host, then the bots after it |
| Lifecycle.StartAllBotOutcome | worker.py:177-189 | In a valid fleet, under any command outcomes, each bot fares on its own. If its own clone, venv and pip succeed at the trace position where its turn comes, its unit text is installed at the end. If any of them fails, its unit file entry ends as it was before the fleet started. Either way the later bots are still started |
| Lifecycle.StartAllInstallsFleet | worker.py:180-189 | When every command succeeds, starting a valid fleet leaves each bot's own unit text in the conf directory; no bot overwrites another |
| Lifecycle.Host.Execute | worker.py:191-201 | An external command is appended to the trace and reports the oracle's outcome for its position; nothing else changes |
| Lifecycle.Host.ReloadSupervisord | worker.py:203-208 | reread then update are appended, whatever their outcome |
| Lifecycle.Host.WriteSupervisordConfig | worker.py:115-134 | Only the entry `S.conf` of the conf directory changes, and it becomes the rendered text |
| Lifecycle.Host.Provision | worker.py:150-164 | It drops any old checkout, clones, and runs venv then pip while they succeed. It reports overall success, and the new state is the provisioning effect |
| Lifecycle.Host.StartBot | worker.py:137-178 | The new host state is the start effect of the old one, with the cluster's rendered unit text |
| Lifecycle.Host.SortBotRunCommands | worker.py:180-189 | Both branches start the bot, so the new state is every cluster's start effect applied in order, each writing the cluster's rendered unit text |
| Lifecycle.Host.StopBot | worker.py:210-225 | The stop command is issued, `S.conf` is removed if present, and reread and update are issued |
| Lifecycle.Host.RestartAllBots | worker.py:227-232 | The new state is every bot's stop effect in order, followed by one more reload |

## Left out

- Logging and every log message (worker.py:19-28 and throughout): output only, no behaviour.
- Reading `config.json` and `json.load`: the document is an `Option` of the cluster names that `config.get('clusters', [])` yields. `None` stands for a missing or malformed file.
- `json.loads` of each variable is taken as done. The environment maps names to a decoded JSON value or to "undecodable".
- `generate_prefix`, `random.choice` and `WORD_LIST`: randomness and a module that is not part of this model. Prefixes are an input sequence, taken one per surviving cluster.
- `subprocess`, `asyncio`, `shutil.rmtree`, `Path.exists` and `time.sleep(5)`: external processes, the filesystem and timing. They become the command trace, the exit-status oracle, the requirements oracle and the set of checkout directories.
- A failed `git clone` is modelled as leaving no checkout directory: the command's own effect on disk is not visible to the code.
- `threading.Lock`, the concurrent `asyncio.gather` stop path under `--restart`, and the signal handlers: concurrency and interrupts. The model is sequential.
- argparse, `load_dotenv` and the module-level `load_config("config.json")`: wiring and I/O. `RestartAllBots` takes the fleet as a parameter rather than reading the global list.
- The unused locals `bot_env` and `log_dir` in `start_bot`.
- `write_text` and `unlink` failures: each write or removal is modelled as a map update that succeeds.
- The log-message difference between the two branches of `sort_bot_run_commands`: both start the bot, so they are modelled as one.
- Loader.LoadConfig: requires that the first four details of every surviving cluster are strings and that there are enough prefixes. The source formats non-string values with `str()` or fails with `KeyError`/`AttributeError`, and those paths are not modelled.
- Loader.EnvOf: an env object is an ordered sequence of string pairs. Non-string values, which the source formats with `str()`, are not modelled. Nor is the uniqueness of keys in a decoded dict: a sequence with a repeated key would render one assignment per pair, where the source's dict holds only the last value.
- Lifecycle.StartAll: `start_bot` catches only `CalledProcessError`. Any other exception escapes and ends `sort_bot_run_commands`, for example `shutil.rmtree` failing, or `subprocess.run` raising `FileNotFoundError` for a missing `git` or `python3` (worker.py:150-178). The model has no such exceptions, so every failure counts as a failed command and the next bot is still started.
- Validation.IsDigit: `\d` is taken to mean the ASCII digits. Python also accepts other Unicode decimal digits.
- Validation.ValidateConfig: clusters are records whose fields are strings. Missing `name`, and non-string `git_url` or `bot_number`, which the source would crash on, are not modelled.
- Naming.LaunchCommand: no pathlib normalisation. An absolute `run_command`, an empty one, a trailing `/` and `.`/`..` components give plain string joins, where pathlib would normalise them. `Naming.LaunchDispatch` states the dispatch for non-empty relative run commands.
