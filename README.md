# KiAuto: the layer table, the print configuration and the GUI waits

This project models two parts of KiAuto, the tool that drives KiCad's GUI under a virtual X server.

- How `pcbnew_print_layers` prepares pcbnew before it prints:
  - It reads the 50-slot layer table from the `(layers ...)` block of a `.kicad_pcb` file.
  - It marks the layers the user requested.
  - It writes the pcbnew configuration: seven fixed settings, then one `PlotLayer_<x>=<f>` line
    per slot.
- The waits of `ui_automation`:
  - for the X server and for the window manager;
  - for a window to gain or lose the focus;
  - for a window to appear;
  - the `set_wait`/`wait_point` key prompt.

The modules:

- `Text` (`text.dfy`) models the Python primitives the code relies on:
  - the `\s` and `\d` classes;
  - `bytes.splitlines` and `bytes.rstrip`;
  - `'%d' % n` and `int(...)` on digit strings.
- `PcbLayers` (`pcb_layers.dfy`) models the layer-table scan:
  - The three regular expressions become `OpensLayers`, `MatchEntry` and `IsBareClose`.
  - `LayerTable` specifies the table by the file's first block. It is the store of the block's
    entries into a blank table. A collected entry whose slot is 50 or more is the `IndexError`
    the assignment raises.
  - `ReadLayerNames` is the scan loop itself. It fills an array and is proved equal to
    `LayerTable`.
- `PrintConfig` (`print_config.dfy`) covers marking and writing:
  - `MarkLayers` marks the requested layers in the flag array. `Flags` and `Unknown` specify it.
  - `WriteConfig` writes the configuration line by line. `ConfigLines` specifies it.
  - `ReadFlags` reads the text back, so the written configuration is proved to round-trip.
- `UiAutomation` (`ui_automation.dfy`) models the waits:
  - Every external program becomes an observation:
    - an exit-code stream for `setxkbmap -query`/`wmctrl -m`;
    - a `World` answering the n-th `xdotool` call, given its command.
  - Each wait's outcome (`Wait`, `WindowResult`) is proved against a function of those
    observations.
  - `int(timeout / 0.5)` is modelled as `2 * timeout`, as callers pass whole seconds.
  - The `wait_for_key` global is a `WaitFlag` object.

## Model

| member | source | states |
|---|---|---|
| PcbLayers.Blank | src/pcbnew_print_layers.py:194 | the initial table has exactly 50 slots, each `-` |
| PcbLayers.OpensLayersIff | src/pcbnew_print_layers.py:209-210 | a line opens the block exactly when some white-space character is directly followed by `(layers`, anywhere in the line |
| PcbLayers.IsSpacedParenIff | src/pcbnew_print_layers.py:205-207 | the closing pattern `^\s+\)$` matches exactly a line of one or more white-space characters followed by a final `)` |
| PcbLayers.MatchEntryIff | src/pcbnew_print_layers.py:199-203 | the entry pattern matches exactly the lines of the shape indent, `(`, digits, white space, non-space run, and yields the decimal value of the digits and the whole non-space run |
| PcbLayers.EntryLineRoundTrip | src/pcbnew_print_layers.py:199-203 | an entry line assembled from indent, digits, gap, name and rest is read back as that slot number and that name |
| PcbLayers.EntryIsNotClose | src/pcbnew_print_layers.py:199-207 | no line is both an entry and a closing line, so the order in which the loop tests them does not matter |
| PcbLayers.KindsConsistent | src/pcbnew_print_layers.py:199-207 | across a whole file, no line is classified as both an entry and a closing line |
| PcbLayers.EntryLineKind | src/pcbnew_print_layers.py:199-210 | every entry-shaped line is read as exactly that entry and never closes the block; it opens one exactly when the opening pattern is also found in it |
| PcbLayers.StoreSlots | src/pcbnew_print_layers.py:203 | storing entries fails exactly when some entry's slot is past the table, and then with the first such index; otherwise each slot holds the name of the last entry naming it, and every other slot keeps its value |
| PcbLayers.StoreFailureSticks | src/pcbnew_print_layers.py:203 | once an assignment has raised, later entries do not change the outcome |
| PcbLayers.TableSlots | src/pcbnew_print_layers.py:194-211 | the table read from a file has 50 slots; each holds the last collected name for that slot, or `-` where no entry names it; or the result is the `IndexError` of the first collected entry past slot 49 |
| PcbLayers.LinesBeforeOpeningIgnored | src/pcbnew_print_layers.py:208-210 | lines before the first opening line never affect the table, even when they look like entries |
| PcbLayers.LinesAfterCloseIgnored | src/pcbnew_print_layers.py:205-207 | once an opening line has been followed by a closing line, lines appended after it do not affect the table (the `break`) |
| PcbLayers.NonEntryLineIgnored | src/pcbnew_print_layers.py:198-207 | once an earlier line has opened the block, a line that is neither an entry nor a closing line leaves the layer table unchanged, wherever it stands |
| PcbLayers.BlockSkip | src/pcbnew_print_layers.py:198-207 | the same on line kinds: whether the block is still open or already closed when the line comes, the table is unchanged |
| PcbLayers.ScanIsLayerTable | src/pcbnew_print_layers.py:196-210 | the line-by-line scan with its `collect_layers` state produces the table specified by the file's first block |
| PcbLayers.CollectLine | src/pcbnew_print_layers.py:198-207 | handling one line while collecting: stores the entry, raises past the table, or stops at a closing line, as the scan's step function says |
| PcbLayers.ReadLayerNames | src/pcbnew_print_layers.py:194-211 | the scan over a 50-slot array returns the line-by-line scan's table |
| PrintConfig.IndexOf | src/pcbnew_print_layers.py:236 | `list.index`: the first slot holding the name, and none (the `ValueError`) exactly when the name is absent |
| PrintConfig.FoundSetsFlag | src/pcbnew_print_layers.py:234-236 | a request whose first occurrence is slot `x` sets flag `x` to 1, whatever requests follow |
| PrintConfig.FlagSetByRequest | src/pcbnew_print_layers.py:233-238 | every flag is 0 or 1, and a flag of 1 was set by a request found first in that slot |
| PrintConfig.FlagsSetIff | src/pcbnew_print_layers.py:233-238 | flag `x` is 1 exactly when some request's first occurrence is slot `x` |
| PrintConfig.FlagsDependOnNamesOnly | src/pcbnew_print_layers.py:233-238 | the flags depend only on the set of requested names, not on their order or repetition |
| PrintConfig.RepeatIdempotent | src/pcbnew_print_layers.py:234-236 | requesting a name again changes no flag |
| PrintConfig.UnknownLeavesFlags | src/pcbnew_print_layers.py:237-238 | an unknown name is reported, leaves every flag unchanged, and processing goes on |
| PrintConfig.DashMarksLowestUnnamed | src/pcbnew_print_layers.py:194-236 | requesting `-` sets exactly the flag of the lowest slot holding `-` (a slot no entry has named, or one an entry named `-`) |
| PrintConfig.MarkLayers | src/pcbnew_print_layers.py:233-238 | the request loop's 50 flags and its unknown-layer reports are the specified flags and reports |
| PrintConfig.PlotLinesAt | src/pcbnew_print_layers.py:240-241 | plot line `x` is `PlotLayer_<x>=<flag x>` |
| PrintConfig.WriteConfig | src/pcbnew_print_layers.py:220-241 | the text written is the seven header lines, then the 50 plot lines, each ended by a newline |
| PrintConfig.PlotLineRoundTrip | src/pcbnew_print_layers.py:241 | a `PlotLayer_%d=%d` line reads back as its slot and flag |
| PrintConfig.PlotLinesRoundTrip | src/pcbnew_print_layers.py:240-241 | the plot lines read back as the flags they were written from |
| PrintConfig.HeaderNoBreak | src/pcbnew_print_layers.py:221-231 | no header line contains a line break |
| PrintConfig.ConfigRoundTrip | src/pcbnew_print_layers.py:220-241 | the written configuration, split into lines and parsed, gives back exactly the 50 flags |
| PrintConfig.GenerateConfig | src/pcbnew_print_layers.py:194-241 | a table read that raises stops before any configuration is written; otherwise the text is the configuration of the flags of the requests against the file's table, and the unknown names are reported |
| PrintConfig.FrontCopperOnly | src/pcbnew_print_layers.py:194-241 | for a block holding `F.Cu` in slot 0 and `B.Cu` in slot 31, requesting `F.Cu` gives `PlotLayer_0=1` and 0 for every other slot |
| UiAutomation.XsetNeverProbed | kicad_auto/ui_automation.py:76-82 | as written, no set of installed programs selects `xset q`; with only `xset` installed, `ls` is selected |
| UiAutomation.IntendedProbeUsesXset | kicad_auto/ui_automation.py:76-82 | the corrected choice falls back to `ls` exactly when neither program is installed, and uses `xset q` when only `xset` is |
| UiAutomation.PollExit | kicad_auto/ui_automation.py:83-92 | the poll stops at the first zero exit code among the allowed attempts, and times out exactly when every attempt fails |
| UiAutomation.WaitXServer | kicad_auto/ui_automation.py:71-92 | probes with the program chosen as intended, at most 20 times; ready at the first zero exit code, and timed out exactly when all 20 fail |
| UiAutomation.WaitWm | kicad_auto/ui_automation.py:95-112 | without `wmctrl`, returns with no probe; otherwise ready at the first of at most 20 zero exit codes, and timed out exactly when all fail |
| UiAutomation.TrailingSpaceSettles | kicad_auto/ui_automation.py:240-242 | a focus reply naming the id followed by a newline or other trailing ASCII white space settles `wait_focused` for that id and not `wait_not_focused` |
| UiAutomation.FocusWait | kicad_auto/ui_automation.py:236-259 | the focus wait stops at the first probe that fails or whose stripped id matches (or, negated, differs); it times out exactly when all `2*timeout` probes leave it unsettled; with zero attempts it fails on the unbound `cur_id` |
| UiAutomation.PollFocus | kicad_auto/ui_automation.py:239-246 | the polling loop ends as the focus-wait specification says |
| UiAutomation.WaitFocused | kicad_auto/ui_automation.py:236-246 | `wait_focused` is the focus wait for the id becoming focused |
| UiAutomation.WaitNotFocused | kicad_auto/ui_automation.py:249-259 | `wait_not_focused` is the focus wait for any other id |
| UiAutomation.Pick | kicad_auto/ui_automation.py:273-276 | the id picked from a non-empty search reply is one of the listed ids |
| UiAutomation.FirstVisible | kicad_auto/ui_automation.py:289-296 | the first alternative whose search succeeds; every earlier one failed |
| UiAutomation.AfterMiss | kicad_auto/ui_automation.py:286-297 | after a miss, an abort names one of the alternatives; otherwise the command and picked id carry over, and without alternatives nothing is searched |
| UiAutomation.Round | kicad_auto/ui_automation.py:270-297 | an abort in one attempt names an alternative; with the search kept as the command, a miss keeps the command |
| UiAutomation.CheckOthers | kicad_auto/ui_automation.py:289-296 | the alternatives loop ends as `AfterMiss` specifies |
| UiAutomation.TryWindow | kicad_auto/ui_automation.py:270-297 | one attempt of the loop, either as written (the next command becomes `windowfocus`) or with the search kept, ends as the attempt specification says |
| UiAutomation.WaitForWindow | kicad_auto/ui_automation.py:262-299 | the whole wait, searching on every attempt, ends as the corrected attempt loop does over `2*timeout` attempts; it times out exactly when every attempt misses; with `focus`, a list is returned only after `windowfocus` on the id picked from that list (not the skipped one) succeeded and the focus wait saw it focused; when every successful search lists a window, a returned list is never empty |
| UiAutomation.TimedOutIffAllMiss | kicad_auto/ui_automation.py:269-299 | the wait raises its own timeout exactly when each of its remaining `2*timeout` attempts misses |
| UiAutomation.RoundFoundFocused | kicad_auto/ui_automation.py:270-284 | with `focus`, an attempt returns a list only when its command succeeded, the list is that command's output lines, the picked id is not the skipped one, `windowfocus` on it succeeded and `wait_focused` saw it focused |
| UiAutomation.FoundOnlyWhenFocused | kicad_auto/ui_automation.py:269-284 | with `focus`, the loop returns a list only after some later xdotool call focused the id picked from that list (not the skipped one) and the focus wait then saw it focused |
| UiAutomation.NoOthersNeverAbort | kicad_auto/ui_automation.py:289-294 | without alternatives the wait never raises `ValueError` |
| UiAutomation.AbortNamesAlternative | kicad_auto/ui_automation.py:289-294 | every `ValueError` names one of the alternative patterns |
| UiAutomation.FixedFoundHasPick | kicad_auto/ui_automation.py:271-284 | when every attempt searches, a returned list is non-empty and its pick is not the skipped id |
| UiAutomation.FixedWaitFindsWindows | kicad_auto/ui_automation.py:262-299 | when every successful search lists at least one window, the corrected wait, which searches on every attempt, never returns an empty list |
| UiAutomation.StaleFocusCommandReturnsEmpty | kicad_auto/ui_automation.py:280-284 | in a world where the first `windowfocus` fails, the as-written wait returns an empty list, while the corrected one returns `["7"]` |
| UiAutomation.WaitFlag.WaitPoint | kicad_auto/ui_automation.py:307-309 | the wait point prompts exactly when the flag is set |
| UiAutomation.ReplaySetWait | kicad_auto/ui_automation.py:302-309 | after a sequence of `set_wait` calls, the wait point prompts exactly when the last call set the flag, and never when there was none |
| UiAutomation.LaterSetWaitWins | kicad_auto/ui_automation.py:302-304 | later `set_wait` calls override earlier ones, and the initial state does not prompt |

## Left out

- The rest of `pcbnew_print_layers` is not modelled, because it is I/O and GUI scripting:
  - argument parsing and opening the PCB file;
  - backing up and restoring the pcbnew configuration, and the `atexit` hook;
  - the keystroke script of `print_layers`;
  - logging.
- `PcbLayers`: the file is given as the lines iteration over it yields, each keeping its newline.
  How the file is split into lines is not modelled.
- `PcbLayers`: `\d` is taken as the ASCII digits only. Python's `\d` also accepts other Unicode
  decimal digits, which `int` would read; KiCad never writes them.
- `PrintConfig.GenerateConfig`: the `Unknown layer` messages are returned as a list of names
  instead of being printed.
- The worked example is stated at the level of the block's entries (`FrontCopperOnly`), not for
  a literal PCB text.
- Processes, sleeps, file descriptors, `DISPLAY` and logging in `ui_automation` are not modelled.
  Each program's run is an observation in the model: an exit code or an `xdotool` reply.
- Not modelled, because they only start and stop processes or the clipboard:
  - `PopenContext`;
  - `start_wm`, `start_record` and `start_x11vnc`;
  - `recorded_xvfb`;
  - `clipboard_store`.
- `debug_window` is not modelled, because it only prints diagnostics.
- The real waits run between `time.sleep` calls. Here, time is counted only as the number of
  attempts.
- `UiAutomation.WaitXServer` uses the corrected probe choice. The choice as written is the
  function `XServerProbe` (see Findings).
- `UiAutomation.WaitForWindow` runs the corrected loop, which searches on every attempt. The loop
  as written is the function `WindowWait` with `fixed` unset (see Findings).
- `UiAutomation.WaitForWindow`: a `CalledProcessError` raised inside `wait_focused` is caught by
  the loop's `except` and counts as a miss. The model keeps this.
- `UiAutomation.WaitForWindow`: `NoWindowId` is the `UnboundLocalError` of a search reply that
  lists no id when none was picked before. A focus wait inside the loop always makes at least two
  probes, because an attempt runs only when `2*timeout >= 1`, so its `Unbound` outcome cannot
  occur there.
- `UiAutomation.WaitFlag.SetWait` and the `WaitFlag` constructor change or create the object's
  state. They are proved through `ReplaySetWait`.

## Findings

| source | as written | input that shows it | evidently intended | confidence | as-written member | corrected member |
|---|---|---|---|---|---|---|
| kicad_auto/ui_automation.py:78 | the `elif` tests for `setxkbmap` a second time, so the `xset q` branch can never be taken | only `xset` installed: the wait probes with `ls`, which succeeds whether or not the X server is up | the second test checks for `xset`, so `xset q` is probed when `setxkbmap` is missing | high (not executed) | UiAutomation.XsetNeverProbed | UiAutomation.IntendedProbeUsesXset |
| kicad_auto/ui_automation.py:280-281 | `xdotool_command` is overwritten with the `windowfocus` command. When focusing then fails, the following attempts run `windowfocus` instead of the search, and its empty output is returned as the window list | `StaleFocusWorld` with `wait_for_window(name, "Print", timeout=1)`: the search finds `7`, the first `windowfocus` fails, the second prints nothing, and the focus is on `7`. The wait returns `[]` | the focus command goes to its own variable, and each attempt searches again and returns the non-empty list it found | medium (not executed) | UiAutomation.StaleFocusCommandReturnsEmpty | UiAutomation.FixedWaitFindsWindows |
