# dvgrab-gui capture core, modelled in Dafny

dvgrab-gui is a Tk front-end for the `dvgrab` DV capture tool. All of its
logic sits in `dvgrab.py`. This project models the part of that file that
does more than drive widgets, and proves properties of the model:

- **Subfolder allocation** (`find_next_subfolder`), in `Allocator.dfy`. Each base directory has a persisted "next index". The allocator reconciles it with the numbered folders that already exist, picks the new index, and stores the index after it. The directory listing is an input: a sequence of (name, is-directory) pairs. The settings object is a class whose map the method updates in place.
- **Binary resolution and command synthesis** (`which_dvgrab`, `build_dvgrab_cmd`), in `Command.dfy`, `Options.dfy` and `Builder.dfy`.
  - `Command.dfy` states each emission rule of the builder as a function producing typed arguments (`Opt`, `OptAssign`, `Word`). `Arguments` concatenates the rules in the builder's order, and `CommandLine` renders them as strings.
  - The rule functions carry no postconditions of their own. Each rule's meaning is stated in a lemma beside it (`FormatRule`, `CountRule`, …). A non-recursive function's postcondition is assumed wherever the function appears, and that made the whole-command proofs far more expensive.
  - `Options.dfy` reads the options off an argument vector. It proves that, for every setting, they are exactly the entries of a fixed option list whose conditions hold, in that list's order.
  - `Builder.dfy` is the imperative builder. It grows the vector step by step, as the source does, and is proved to produce `CommandLine`.
  - The host's answers (does a path exist, what does a PATH search find) are an input record `Env`.
- **The capture log** (`_read_stream`, the tail of `_pump_process`, `_schedule_log_pump`), in `LogStream.dfy`.
  - `NormaliseLine` gives the texts queued for one output line.
  - `ExitEntries` gives the two entries queued when dvgrab exits.
  - `Displayed` gives what the log view shows for queued entries.
  - The class `LogView` holds the queue and the shown lines. Its reading and pumping loops are proved against those functions.
- **The capture lifecycle** (`start_capture`, `stop_capture`, `_pump_process`, `copy_command`, `on_close`), in `Session.dfy`. The class `App` keeps the `proc` field and guards on it. `App.Valid` says that a running process writes into the last allocated folder.
- **Helpers**: `_as_int`, in `Helpers.dfy`, and the string operations the code relies on, in `Text.dfy`:
  - `str.strip`, `str.rstrip` and `str.split` (`Strip`, `RStrip`, `Split`);
  - ASCII `isdigit` (`IsDigits`);
  - `str(int)` and `int(str)` (`IntToString`, `ParseInt`);
  - joining a path (`JoinPath`).

Some behaviour of the code that the model keeps as written:

- `-size` is passed whenever the size is at least 0, so `-size 0` is passed for the default size, while a negative size from `_as_int` drops the option (dvgrab.py:184-186).
- The builder strips the GUID itself before passing it (dvgrab.py:223-225), as it strips the card, the channel, the V4L2 input and the duration; a value that is blank once stripped is not passed.
- The command preview (`copy_command`) calls the same mutating allocator as a capture start, although the comment beside that call (dvgrab.py:534) says a dry run should not increment the stored counter. So a preview moves the stored counter on (`Session.App.CopyCommand`).
- The "choose an output directory" check in `start_capture` tests a `Path` object, which is always true. It is therefore not modelled as a guard.

## Model

| member | source | states |
|---|---|---|
| Allocator.Matches | dvgrab.py:126-131 | no contract of its own: the pattern `^prefix(\d+)$`, where `$` may also stand before a final newline; its meaning is stated by `Allocator.MatchesPrefixDigits` |
| Allocator.MatchedNumber | dvgrab.py:132 | no contract of its own: the value of the captured digits; see `Allocator.MatchesPrefixDigits` |
| Allocator.MatchesPrefixDigits | dvgrab.py:126-132 | a name made of the prefix and one or more digits matches the pattern and captures exactly the value of those digits |
| Allocator.MaxFound | dvgrab.py:124-136 | the scanned maximum bounds the number of every directory child that matches, and is one of those numbers, or 0 when none matches |
| Allocator.ScanMaxFound | dvgrab.py:125-136 | the scanning loop returns that maximum |
| Allocator.NextIndex | dvgrab.py:122-138 | the allocated index is at least 1 and at least the persisted counter (1 when absent), and above the number of every matching directory child |
| Allocator.NextIndexIsLeast | dvgrab.py:138 | the index is the persisted counter, 1, or one more than some matching child's number, so no smaller index would do |
| Allocator.CandidateName | dvgrab.py:140 | no contract of its own: the prefix followed by the index in decimal; see `Allocator.CandidateAvoidsExistingFolders` |
| Allocator.CandidateAvoidsExistingFolders | dvgrab.py:126-140 | the new folder's name differs from the name of every directory already in the base directory |
| Allocator.AllocationsIncrease | dvgrab.py:138-142 | successive allocations for one base directory, whatever the folders on disk at each call, are strictly increasing and never below the starting counter |
| Allocator.OtherDirectoriesUnaffected | dvgrab.py:120-143 | allocating for one base directory does not change the index another base directory would get |
| Allocator.Settings.FindNextSubfolder | dvgrab.py:116-144 | returns base/prefix+idx for the allocated idx and stores idx + 1 for that base key, every other key unchanged |
| Allocator.TapeScenario | dvgrab.py:120-143 | a base holding tape1 and tape3 with no stored counter gets tape4, and the counter becomes 5 |
| Allocator.FilesAreNotScanned | dvgrab.py:128-129 | a regular file named like a numbered folder does not move the index |
| Helpers.AsInt | dvgrab.py:693-698 | blank text gives the default |
| Helpers.AsIntRoundTrip | dvgrab.py:693-698 | a decimal integer with any whitespace around it reads back as that integer |
| Helpers.AsIntWithoutDigits | dvgrab.py:693-698 | text without a digit gives the default |
| Command.WhichDvgrab | dvgrab.py:146-151 | no contract of its own; its meaning is stated by `Command.WhichDvgrabResolves` and `Session.KnownBinaryIsLocatable` |
| Command.WhichDvgrabResolves | dvgrab.py:146-151 | the binary is never empty; a non-empty preference containing '/' or naming an existing path is used as given; otherwise a non-empty PATH hit for the preference (or "dvgrab") wins, and failing that the preference, or "dvgrab" |
| Command.FormatRule | dvgrab.py:164-172 | `-format F` is passed exactly for F in dv2, dv1, raw, qt, mov, avi, mpeg2, and nothing otherwise |
| Command.SchemeRule | dvgrab.py:174-181 | at most one scheme option; one exactly for timestamp, timecode or timesys, spelled as the scheme after a dash |
| Command.CountRule | dvgrab.py:187-202 | a count option is passed exactly when the count is above its threshold, followed by a word that reads back as the count |
| Command.SizeRule | dvgrab.py:184-186 | `-size` is passed exactly when the size is at least 0, so a size of 0 yields `-size 0` |
| Command.AutosplitRule | dvgrab.py:190-196 | nothing when autosplit is off, bare `-autosplit` for a period that is not positive, otherwise one `-autosplit=S` whose value reads back as S |
| Command.AutosplitToken | dvgrab.py:193-194 | with a positive period the rule renders as the single string "-autosplit=" followed by the period |
| Command.DigitsRule | dvgrab.py:216-222 | `-card` or `-channel` is passed, with the stripped value, exactly when the stripped value is all digits |
| Command.TextRule | dvgrab.py:223-237 | `-guid` or `-duration` is passed exactly when the value is not blank, and its value has no whitespace at either end |
| Command.V4l2Rule | dvgrab.py:227-232 | `-v4l2` is passed exactly when enabled; `-input` only right after it, exactly when enabled with a non-blank input |
| Command.Arguments | dvgrab.py:161-246 | no contract of its own: the typed arguments of every rule, in the builder's order; see `Options.ArgumentsFlags` and `Options.FlagInArguments` |
| Command.CommandLine | dvgrab.py:155-247 | no contract of its own: the arguments rendered as strings; see `Command.CommandFrame`, `Builder.RenderArguments` and `Builder.BuildDvgrabCmd` |
| Command.CommandFrame | dvgrab.py:155-247 | the command has at least two elements, starts with the resolved binary and ends with capture_dir/"clip-" |
| Options.ArgumentsFlags | dvgrab.py:155-247 | the options of the command, in order, are exactly the options of the fixed emission list whose condition holds, for every setting |
| Options.FlagInArguments | dvgrab.py:155-247 | each option of the emission list is on the command line as an option if and only if its condition holds (size of at least 0, frames/csize/cmincutsize above 0, every above 1, opendml only with dv2, input only with v4l2) |
| Options.AllFlagsDistinct | dvgrab.py:155-247 | no option is emitted by two different rules |
| Builder.RenderArguments | dvgrab.py:161-247 | the rendered command is the binary followed by each rule's strings, in the builder's order |
| Builder.AppendFormat | dvgrab.py:164-172 | the format step appends exactly the format rule's strings |
| Builder.AppendScheme | dvgrab.py:174-181 | the scheme step appends exactly the scheme rule's strings |
| Builder.AppendCount | dvgrab.py:184-202 | a count step appends exactly the count rule's strings |
| Builder.AppendAutosplit | dvgrab.py:190-196 | the autosplit step appends exactly the autosplit rule's strings |
| Builder.AppendSwitch | dvgrab.py:205-214 | a switch step appends exactly its option when the condition holds |
| Builder.AppendDigits | dvgrab.py:217-222 | the card or channel step appends exactly the digits rule's strings |
| Builder.AppendText | dvgrab.py:223-237 | the GUID or duration step appends exactly the text rule's strings |
| Builder.AppendV4l2 | dvgrab.py:228-232 | the V4L2 step appends exactly the V4L2 rule's strings |
| Builder.AppendBase | dvgrab.py:244-246 | the last step appends capture_dir/"clip-" |
| Builder.AppendSplitting | dvgrab.py:183-202 | the splitting section appends the size, frames, autosplit, csize and cmincutsize rules in that order |
| Builder.AppendBehaviours | dvgrab.py:204-214 | the behaviour section appends the five switches in order |
| Builder.AppendSource | dvgrab.py:216-237 | the device routing, V4L2 and duration section appends its five rules in order |
| Builder.BuildDvgrabCmd | dvgrab.py:155-247 | the vector built step by step equals `CommandLine` for the settings, the capture directory and the resolved binary |
| LogStream.NormaliseLine | dvgrab.py:637-644 | no contract of its own: the texts queued for one line; see `LogStream.NormalisedTextsClean`, `LogStream.SingleLine` and `LogStream.StatusUpdates` |
| LogStream.KeptFragmentsAppend | dvgrab.py:637-642 | fragments are kept piece by piece, so they come out in the order of the pieces |
| LogStream.KeptFragmentsMembership | dvgrab.py:637-642 | a text is kept exactly when it is the right-stripped form of a piece that is not blank |
| LogStream.NormalisedTextsClean | dvgrab.py:636-644 | no queued text contains a carriage return or ends in whitespace, and a line with a carriage return never yields an empty text |
| LogStream.SingleLine | dvgrab.py:643-644 | a line without a carriage return yields exactly one text: the line minus its trailing whitespace, empty exactly when the line is blank |
| LogStream.StatusUpdates | dvgrab.py:637-642 | "a\r \rb\n" yields "a" and "b", in that order |
| LogStream.StreamEntriesFromLines | dvgrab.py:632-644 | every entry of a stream carries the stream's tag and a text normalised from one of its lines |
| LogStream.ExitEntries | dvgrab.py:626-627 | no contract of its own: the sentinel entry, then the exit report; see `LogStream.ExitReport` |
| LogStream.ExitReport | dvgrab.py:625-627 | the sentinel comes first; the exit report carries a code that reads back as the return code, and is tagged as an error exactly when the code is not 0 |
| LogStream.Displayed | dvgrab.py:658-661 | no contract of its own: the lines shown for queued entries; see `LogStream.DisplayedMembership` and `LogStream.DisplayedAppend` |
| LogStream.DisplayedAppend | dvgrab.py:655-663 | showing entries over several pumps shows the same as showing them at once |
| LogStream.DisplayedMembership | dvgrab.py:655-661 | a line is shown exactly when some entry has its text and that text is not "[exit]", with the error flag set exactly for the "err" tag |
| LogStream.DisplayedExit | dvgrab.py:659-661 | of the exit entries only the code is shown, as an error exactly when it is not 0 |
| LogStream.LogView.Put | dvgrab.py:626-627 | putting an entry appends it to the queue |
| LogStream.LogView.Log | dvgrab.py:666-670 | logging appends one line with its error flag to the view |
| LogStream.LogView.ReadStream | dvgrab.py:632-651 | the queue grows by the normalised, tagged entries of every line of the stream; an absent stream adds nothing |
| LogStream.LogView.QueueLine | dvgrab.py:636-644 | one line adds exactly its normalised texts with the stream's tag |
| LogStream.LogView.QueueFragments | dvgrab.py:639-642 | the pieces of a split line add exactly the kept fragments |
| LogStream.LogView.Pump | dvgrab.py:655-663 | a pump empties the queue and appends exactly the displayed form of its entries to the view |
| Session.Locatable | dvgrab.py:562 | no contract of its own: the binary is found by the PATH search or exists as a path, the check before starting |
| Session.KnownBinaryIsLocatable | dvgrab.py:146-151 | on a host whose PATH hits exist, the resolved binary passes the check before starting whenever the preference names an existing file or PATH finds the searched name |
| Session.App.Valid | dvgrab.py:572-584 | no contract of its own: a running dvgrab writes into the last allocated folder, under the base name "clip-"; kept by every method of `Session.App` |
| Session.App.constructor | dvgrab.py:428 | a new window has no process, no stop request (dvgrab.py:258-261) and no last folder |
| Session.App.StartCapture | dvgrab.py:555-595 | refused, changing nothing, while a process runs or when the binary cannot be located; otherwise the next folder is allocated; when it cannot be made only the counter has moved; otherwise it is recorded, it and the command are logged, the stop flag is cleared, and dvgrab runs on exactly the built command, or no process is left when the start fails |
| Session.App.Launch | dvgrab.py:574-595 | the folder is recorded, the folder and the shell form of the command are logged in that order, the stop flag is cleared, and the process runs the given command, or there is none when the start fails; `Valid` holds after it |
| Session.App.StopCapture | dvgrab.py:603-615 | without a process nothing changes; with one the stop is requested and logged, and the process stays until it exits |
| Session.App.ProcessExited | dvgrab.py:617-630 | with a process, the exit entries are added to the queue; the process is cleared either way, and the stop flag, the last folder and the view are unchanged |
| Session.App.CopyCommand | dvgrab.py:529-539 | the preview returns the command for the next folder, moves the stored counter on exactly as a start would, and logs "Copied command:" with the shell form of that command, leaving the queue as it was |
| Session.App.OnClose | dvgrab.py:675-689 | the window closes exactly when nothing runs or the user confirms; a confirmed close with a capture running stops it first (stop requested and logged, process, last folder and queue unchanged), and otherwise nothing changes |

## Left out

- Widgets, layout, the label↔token tables and `_gather_values` (dvgrab.py:251-466, 468-510) are UI. The settings record `Values` holds the converted values `_gather_values` produces. Any `int(x or 0)` conversion in the builder is taken as already done.
- `load_config`/`save_config`, the JSON file and its atomic rename, are file I/O. The map of next indices is a field, and saving it is left out.
- The filesystem, in the allocator and in `which_dvgrab`:
  - `expanduser`, `resolve`, `mkdir` and `iterdir` are filesystem effects. The resolved base directory is the input `baseKey`, and its children are the input `listing`.
  - An exception raised while scanning is swallowed by the source, and the maximum found up to that point is kept. The model's counterpart is a `listing` holding the children read before the failure.
  - A failure of the base directory's `mkdir` (dvgrab.py:119), which leaves the counter as it was, is not modelled.
  - `Path.exists` and `shutil.which` are the input `Env`.
- Allocator.Settings.FindNextSubfolder: the prefix is taken to be a plain name without '/'. `JoinPath` puts a '/' between the base and the name and normalises nothing, while pathlib lets an absolute part replace the base and collapses "//" and "./" inside it; `_gather_values` only strips the prefix (dvgrab.py:484), so such a prefix can be entered.
- Allocator.Settings.FindNextSubfolder: stored counters are taken to be integers already. The source's `int()` on the stored value is not modelled.
- Helpers.AsInt: `int()` also accepts Unicode digits and underscores between digits. The model accepts only ASCII digits with an optional sign. `isdigit()` and the regex `\d` are likewise ASCII-only here.
- Session.App.StartCapture: process creation is the boolean `spawns`, and the folder's `mkdir` is the boolean `created`; their exceptions' messages are left out. `shlex.quote` and the join of the command are the input `shellLine`. Also left out:
  - `save_config`;
  - the message boxes;
  - the button and status updates and the reader threads.
- Session.App.StopCapture: `killpg` with SIGINT and the `terminate` fallback are OS signals, and are not modelled.
- Session.App.OnClose: `save_settings`, the three-second wait for the process and `master.destroy` are left out.
- Session.App.CopyCommand: the shell quoting of the command is the input `shellLine`; the clipboard, and the error dialog shown when building the command raises, are left out.
- Concurrency: the two reader threads, the waiting thread and the `queue.Queue` are sequential in the model. How stdout and stderr lines interleave is not modelled.
- The timestamp and line trimming in `_log` (dvgrab.py:666-673) are left out. So is the 60 ms re-scheduling of the pump.
- LogStream.LogView.ReadStream: lines are taken as `readline` returns them. In text mode, Python's universal newlines already turn a carriage return into a line end, and that translation is not modelled.
- `open_last_folder`, `system_pick_directory` and `main` are external processes and UI.
