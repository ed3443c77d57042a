/** The waits that drive the GUI through xdotool: every wait probes at most `int(timeout / 0.5)`
    times and stops at the first probe that settles it. The external programs are given as their
    replies: an exit-code stream for `setxkbmap -query` and `wmctrl -m`, and a world that answers
    the n-th xdotool call, given its command. */
module UiAutomation {
  import opened Text

  // ---------------------------------------------------------------------------------------------
  // Probes.

  /** The xdotool commands the waits issue. */
  datatype Command = Search(pattern: string) | WindowFocus(window: string) | GetWindowFocus

  /** An xdotool reply: its standard output, or a non-zero exit (`CalledProcessError`). */
  datatype Reply = Output(text: string) | Failure

  /** The reply to the n-th xdotool call, given the command it runs. */
  type World = (nat, Command) -> Reply

  /** `int(timeout / DELAY)` with `DELAY = 0.5`, for the whole-second timeouts the callers pass. */
  function Attempts(timeout: nat): nat {
    2 * timeout
  }

  /** The first `j` in `[i, bound)` at which `stop` holds, or `bound` when there is none. */
  function First(stop: nat -> bool, i: nat, bound: nat): (k: nat)
    requires i <= bound
    ensures i <= k <= bound
    ensures k < bound ==> stop(k)
    ensures forall j :: i <= j < k ==> !stop(j)
    decreases bound - i
  {
    if i == bound then bound else if stop(i) then i else First(stop, i + 1, bound)
  }

  /** How a wait ends: ready after some probes, timed out (`RuntimeError`), stopped by a probe
      that failed (`CalledProcessError`), or `UnboundLocalError` when no probe ran at all. */
  datatype Wait = Ready(probes: nat) | TimedOut | ProbeFailed(probes: nat) | Unbound

  // ---------------------------------------------------------------------------------------------
  // Waiting for the X server and the window manager.

  /** The programs a server wait can probe with. */
  datatype Probe = SetxkbmapQuery | XsetQ | Ls | WmctrlM

  /** The probe `wait_xserver` picks from the programs found on the path. Its second test asks for
      `setxkbmap` again, so `xset q` is never chosen. */
  function XServerProbe(available: set<string>): Probe {
    if "setxkbmap" in available then SetxkbmapQuery
    else if "setxkbmap" in available then XsetQ
    else Ls
  }

  /** No set of programs makes `wait_xserver` probe with `xset q`. */
  lemma XsetNeverProbed(available: set<string>)
    ensures XServerProbe(available) != XsetQ
    ensures "xset" in available && "setxkbmap" !in available ==> XServerProbe(available) == Ls
  {
  }

  /** The probe evidently intended: `xset q` when `setxkbmap` is missing but `xset` is found. */
  function IntendedXServerProbe(available: set<string>): Probe {
    if "setxkbmap" in available then SetxkbmapQuery
    else if "xset" in available then XsetQ
    else Ls
  }

  /** With the intended choice `ls` is used only when neither program is found. */
  lemma IntendedProbeUsesXset(available: set<string>)
    ensures IntendedXServerProbe(available) == Ls <==> "setxkbmap" !in available && "xset" !in available
    ensures "xset" in available && "setxkbmap" !in available ==> IntendedXServerProbe(available) == XsetQ
  {
  }

  const ServerTimeout: nat := 10

  /** Runs the probe up to `attempts` times (exit codes `codes(0)`, `codes(1)`, ...) and is ready at
      the first exit code 0. */
  method PollExit(codes: nat -> int, attempts: nat) returns (r: Wait)
    ensures r.Ready? || r.TimedOut?
    ensures r.Ready? ==> 1 <= r.probes <= attempts && codes(r.probes - 1) == 0
    ensures r.Ready? ==> forall j: nat :: j < r.probes - 1 ==> codes(j) != 0
    ensures r.TimedOut? ==> forall j: nat :: j < attempts ==> codes(j) != 0
  {
    for i := 0 to attempts
      invariant forall j: nat :: j < i ==> codes(j) != 0
    {
      var ret := codes(i);
      if ret == 0 {
        return Ready(i + 1);
      }
    }
    return TimedOut;
  }

  /** `wait_xserver`, with the probe chosen as intended: picks the probe, then makes at most 20
      probes and returns at the first exit code 0; a timeout means all 20 failed. */
  method WaitXServer(available: set<string>, codes: nat -> int) returns (probe: Probe, r: Wait)
    ensures probe == IntendedXServerProbe(available)
    ensures r.Ready? ==> 1 <= r.probes <= 20 && codes(r.probes - 1) == 0
    ensures r.Ready? ==> forall j: nat :: j < r.probes - 1 ==> codes(j) != 0
    ensures r.TimedOut? <==> forall j: nat :: j < 20 ==> codes(j) != 0
    ensures r.Ready? || r.TimedOut?
  {
    probe := IntendedXServerProbe(available);
    r := PollExit(codes, Attempts(ServerTimeout));
  }

  /** `wait_wm`: without `wmctrl` it returns at once without probing; otherwise it probes with
      `wmctrl -m` at most 20 times and returns at the first exit code 0. */
  method WaitWm(available: set<string>, codes: nat -> int) returns (r: Wait)
    ensures "wmctrl" !in available ==> r == Ready(0)
    ensures "wmctrl" in available && r.Ready? ==> 1 <= r.probes <= 20 && codes(r.probes - 1) == 0
    ensures "wmctrl" in available && r.Ready? ==> forall j: nat :: j < r.probes - 1 ==> codes(j) != 0
    ensures "wmctrl" in available ==> (r.TimedOut? <==> forall j: nat :: j < 20 ==> codes(j) != 0)
    ensures r.Ready? || r.TimedOut?
  {
    if "wmctrl" !in available {
      return Ready(0);
    }
    r := PollExit(codes, Attempts(ServerTimeout));
  }

  // ---------------------------------------------------------------------------------------------
  // Waiting for the focus to reach or leave a window.

  /** A `getwindowfocus` reply settles the wait when it fails, or when the focused id (the output
      without trailing white space) equals `id` exactly when `same` asks for it. */
  predicate Settles(reply: Reply, id: string, same: bool) {
    reply.Failure? || (RStrip(reply.text) == id) == same
  }

  /** The reply to the `j`-th focus probe of a wait whose first probe is xdotool call `calls`. */
  function FocusProbe(world: World, calls: nat, j: nat): Reply {
    world(calls + j, GetWindowFocus)
  }

  /** A `getwindowfocus` reply naming `id` with a trailing newline or other ASCII white space
      settles `wait_focused` for `id`, and does not settle `wait_not_focused`. */
  lemma TrailingSpaceSettles(id: string, pad: string)
    requires RStrip(id) == id
    requires forall i :: 0 <= i < |pad| ==> IsAsciiSpace(pad[i])
    ensures Settles(Output(id + pad), id, true) && !Settles(Output(id + pad), id, false)
  {
    RStripAbsorbsTrailingSpace(id, pad);
  }

  /** How `wait_focused` (`same`) or `wait_not_focused` (`!same`) ends when its first probe is
      xdotool call `calls`. */
  function FocusWait(world: World, calls: nat, id: string, attempts: nat, same: bool): (r: Wait)
    ensures r.Unbound? <==> attempts == 0
    ensures r.Ready? ==> 1 <= r.probes <= attempts
    ensures r.Ready? ==> FocusProbe(world, calls, r.probes - 1).Output?
    ensures r.Ready? ==> (RStrip(FocusProbe(world, calls, r.probes - 1).text) == id) == same
    ensures r.ProbeFailed? ==> 1 <= r.probes <= attempts
    ensures r.ProbeFailed? ==> FocusProbe(world, calls, r.probes - 1).Failure?
    ensures r.Ready? || r.ProbeFailed? ==>
      forall j: nat :: j < r.probes - 1 ==> !Settles(FocusProbe(world, calls, j), id, same)
    ensures r.TimedOut? <==>
      attempts > 0 && forall j: nat :: j < attempts ==> !Settles(FocusProbe(world, calls, j), id, same)
  {
    var stop := (j: nat) => Settles(FocusProbe(world, calls, j), id, same);
    var k := First(stop, 0, attempts);
    assert forall j: nat :: stop(j) == Settles(FocusProbe(world, calls, j), id, same);
    if k < attempts then
      if FocusProbe(world, calls, k).Failure? then ProbeFailed(k + 1) else Ready(k + 1)
    else if attempts == 0 then Unbound
    else TimedOut
  }

  /** The focus poll shared by both waits, probing from xdotool call `calls`. */
  method PollFocus(world: World, calls: nat, id: string, attempts: nat, same: bool) returns (r: Wait)
    ensures r == FocusWait(world, calls, id, attempts, same)
  {
    for i := 0 to attempts
      invariant forall j: nat :: j < i ==> !Settles(FocusProbe(world, calls, j), id, same)
    {
      var reply := world(calls + i, GetWindowFocus);
      assert reply == FocusProbe(world, calls, i);
      if reply.Failure? {
        return ProbeFailed(i + 1);
      }
      var current := RStrip(reply.text);
      if (current == id) == same {
        return Ready(i + 1);
      }
    }
    if attempts == 0 {
      return Unbound;
    }
    return TimedOut;
  }

  /** `wait_focused`: returns at the first probe that reports `id` as focused. */
  method WaitFocused(world: World, calls: nat, id: string, timeout: nat) returns (r: Wait)
    ensures r == FocusWait(world, calls, id, Attempts(timeout), true)
  {
    r := PollFocus(world, calls, id, Attempts(timeout), true);
  }

  /** `wait_not_focused`: returns at the first probe that reports another window as focused. */
  method WaitNotFocused(world: World, calls: nat, id: string, timeout: nat) returns (r: Wait)
    ensures r == FocusWait(world, calls, id, Attempts(timeout), false)
  {
    r := PollFocus(world, calls, id, Attempts(timeout), false);
  }

  // ---------------------------------------------------------------------------------------------
  // Waiting for a window.

  /** The arguments of `wait_for_window` that matter: the title pattern, the timeout, whether to
      focus the window, the id to skip (none for the default 0, which no id equals) and the
      alternative patterns. */
  datatype WindowQuery = WindowQuery(pattern: string, timeout: nat, focus: bool, skip: Option<string>, others: seq<string>)

  /** How `wait_for_window` ends: with the whole list of ids found, with `ValueError` naming the
      visible alternative, with `RuntimeError` from its own timeout or from the focus wait, or with
      `UnboundLocalError` when a reply names no window and none was picked before. */
  datatype WindowResult = Found(ids: seq<string>) | Aborted(other: string) | WindowTimedOut | FocusTimedOut | NoWindowId

  /** The id picked from a search reply: element 0 of a one-line reply, element 1 of a longer one;
      an empty reply keeps the id picked before. */
  function Pick(ids: seq<string>, kept: Option<string>): (id: Option<string>)
    ensures ids != [] ==> id.Some? && id.value in ids
  {
    if |ids| == 1 then Some(ids[0])
    else if |ids| > 1 then Some(ids[1])
    else kept
  }

  /** The reply to the search for the `j`-th alternative, the searches being xdotool calls
      `calls`, `calls + 1`, ... */
  function OtherProbe(world: World, calls: nat, others: seq<string>, j: nat): Reply
    requires j < |others|
  {
    world(calls + j, Search(others[j]))
  }

  /** The position, among `others`, of the first pattern whose search succeeds; `|others|` when
      none does. */
  function FirstVisible(world: World, calls: nat, others: seq<string>): (k: nat)
    ensures k <= |others|
    ensures k < |others| ==> OtherProbe(world, calls, others, k).Output?
    ensures forall j: nat :: j < k ==> OtherProbe(world, calls, others, j).Failure?
  {
    var visible := (j: nat) => j < |others| && OtherProbe(world, calls, others, j).Output?;
    assert forall j: nat :: visible(j) == (j < |others| && OtherProbe(world, calls, others, j).Output?);
    First(visible, 0, |others|)
  }

  /** What one attempt leaves for the next: the command to run, the id picked so far and the next
      xdotool call. */
  datatype Attempt = Return(result: WindowResult) | Miss(command: Command, id: Option<string>, calls: nat)

  /** After a miss the alternatives are searched in order; the first one visible aborts, and
      otherwise the next attempt runs `command` with the id kept. */
  function AfterMiss(world: World, others: seq<string>, command: Command, id: Option<string>, calls: nat): (a: Attempt)
    ensures a.Return? ==> a.result.Aborted? && a.result.other in others
    ensures a.Miss? ==> a.command == command && a.id == id && a.calls >= calls
    ensures others == [] ==> a == Miss(command, id, calls)
  {
    var k := FirstVisible(world, calls, others);
    if k < |others| then Return(Aborted(others[k])) else Miss(command, id, calls + |others|)
  }

  /** What follows the focus wait `w` of an attempt that picked `picked` from `ids`: the list is
      returned once the window has the focus, a failed probe is a miss, and the wait's own
      errors end the loop. */
  function AfterFocus(world: World, q: WindowQuery, next: Command, ids: seq<string>, picked: string, calls: nat, w: Wait): (a: Attempt)
    ensures a.Return? && a.result.Aborted? ==> a.result.other in q.others
    ensures a.Return? ==> !a.result.WindowTimedOut?
    ensures a.Miss? ==> a.command == next && a.calls >= calls
  {
    match w
    case Ready(_) => Return(Found(ids))
    case ProbeFailed(p) => AfterMiss(world, q.others, next, Some(picked), calls + p)
    case TimedOut => Return(FocusTimedOut)
    case Unbound => Return(NoWindowId)
  }

  /** The focus part of an attempt that picked `picked` from `ids`: `windowfocus` as xdotool call
      `calls`, then `wait_focused`. As written, `windowfocus` becomes the command of the following
      attempts; `fixed` keeps `command` instead. */
  function FocusStep(world: World, q: WindowQuery, fixed: bool, command: Command, ids: seq<string>, picked: string, calls: nat): (a: Attempt)
    ensures a.Return? && a.result.Aborted? ==> a.result.other in q.others
    ensures a.Return? ==> !a.result.WindowTimedOut?
    ensures a.Miss? && fixed ==> a.command == command
    ensures a.Miss? ==> a.calls >= calls
  {
    var next := if fixed then command else WindowFocus(picked);
    if world(calls, WindowFocus(picked)).Failure? then AfterMiss(world, q.others, next, Some(picked), calls + 1)
    else AfterFocus(world, q, next, ids, picked, calls + 1, FocusWait(world, calls + 1, picked, Attempts(q.timeout), true))
  }

  /** One attempt of the loop, running `command` as xdotool call `calls`. */
  function Round(world: World, q: WindowQuery, fixed: bool, command: Command, id: Option<string>, calls: nat): (a: Attempt)
    ensures a.Return? && a.result.Aborted? ==> a.result.other in q.others
    ensures a.Return? ==> !a.result.WindowTimedOut?
    ensures a.Miss? && fixed ==> a.command == command
    ensures a.Miss? ==> a.calls > calls
  {
    var reply := world(calls, command);
    if reply.Failure? then AfterMiss(world, q.others, command, id, calls + 1)
    else
      var ids := SplitLines(reply.text);
      var picked := Pick(ids, id);
      if picked.None? then Return(NoWindowId)
      else if picked == q.skip then AfterMiss(world, q.others, command, picked, calls + 1)
      else if !q.focus then Return(Found(ids))
      else FocusStep(world, q, fixed, command, ids, picked.value, calls + 1)
  }

  /** The outcome of the attempts from the `i`-th on. */
  function WindowLoop(world: World, q: WindowQuery, fixed: bool, i: nat, command: Command, id: Option<string>, calls: nat): WindowResult
    decreases Attempts(q.timeout) - i
  {
    if i >= Attempts(q.timeout) then WindowTimedOut
    else
      match Round(world, q, fixed, command, id, calls)
      case Return(r) => r
      case Miss(c, d, n) => WindowLoop(world, q, fixed, i + 1, c, d, n)
  }

  /** The outcome of `wait_for_window` whose first xdotool call is call `calls`. */
  function WindowWait(world: World, calls: nat, q: WindowQuery, fixed: bool): WindowResult {
    WindowLoop(world, q, fixed, 0, Search(q.pattern), None, calls)
  }

  /** Searches the alternatives in order and stops at the first visible one. */
  method FindVisible(world: World, calls: nat, others: seq<string>) returns (k: nat)
    ensures k == FirstVisible(world, calls, others)
  {
    k := 0;
    while k < |others|
      invariant k <= |others|
      invariant forall j: nat :: j < k ==> OtherProbe(world, calls, others, j).Failure?
    {
      var reply := world(calls + k, Search(others[k]));
      assert reply == OtherProbe(world, calls, others, k);
      if reply.Output? {
        return;
      }
      k := k + 1;
    }
  }

  /** The alternatives check after a miss. */
  method CheckOthers(world: World, others: seq<string>, command: Command, id: Option<string>, calls: nat) returns (a: Attempt)
    ensures a == AfterMiss(world, others, command, id, calls)
  {
    var k := FindVisible(world, calls, others);
    if k < |others| {
      return Return(Aborted(others[k]));
    }
    return Miss(command, id, calls + |others|);
  }

  /** Ends the attempt according to how the focus wait ended. */
  method FocusOutcome(world: World, q: WindowQuery, next: Command, ids: seq<string>, picked: string, calls: nat, w: Wait) returns (a: Attempt)
    ensures a == AfterFocus(world, q, next, ids, picked, calls, w)
  {
    match w
    case Ready(_) =>
      a := Return(Found(ids));
    case TimedOut =>
      a := Return(FocusTimedOut);
    case Unbound =>
      a := Return(NoWindowId);
    case ProbeFailed(p) =>
      a := CheckOthers(world, q.others, next, Some(picked), calls + p);
  }

  /** Focuses the picked window and waits for it to get the focus; the next attempt runs `command`
      again when `fixed`, and the `windowfocus` command otherwise. */
  method FocusWindow(world: World, q: WindowQuery, fixed: bool, command: Command, ids: seq<string>, picked: string, calls: nat) returns (a: Attempt)
    ensures a == FocusStep(world, q, fixed, command, ids, picked, calls)
  {
    var next := if fixed then command else WindowFocus(picked);
    var focused := world(calls, WindowFocus(picked));
    if focused.Failure? {
      a := CheckOthers(world, q.others, next, Some(picked), calls + 1);
      return;
    }
    var w := WaitFocused(world, calls + 1, picked, q.timeout);
    a := FocusOutcome(world, q, next, ids, picked, calls + 1, w);
  }

  /** One pass of the loop body of `wait_for_window`. */
  method TryWindow(world: World, q: WindowQuery, fixed: bool, command: Command, id: Option<string>, calls: nat) returns (a: Attempt)
    ensures a == Round(world, q, fixed, command, id, calls)
  {
    var reply := world(calls, command);
    if reply.Failure? {
      a := CheckOthers(world, q.others, command, id, calls + 1);
      return;
    }
    var ids := SplitLines(reply.text);
    var picked := Pick(ids, id);
    if picked.None? {
      return Return(NoWindowId);
    }
    if picked == q.skip {
      a := CheckOthers(world, q.others, command, picked, calls + 1);
      return;
    }
    if !q.focus {
      return Return(Found(ids));
    }
    a := FocusWindow(world, q, fixed, command, ids, picked.value, calls + 1);
  }

  /** `wait_for_window` from xdotool call `calls`, with the focus command kept apart from the search
      so that every attempt searches again; the picked id carries over from one attempt to the
      next. A returned list is never empty. */
  method WaitForWindow(world: World, calls: nat, q: WindowQuery) returns (r: WindowResult)
    ensures r == WindowWait(world, calls, q, true)
    ensures SearchLists(world) && r.Found? ==> r.ids != []
    ensures q.focus && r.Found? ==> exists n: nat, kept: Option<string> :: calls < n && PickFocusedAt(world, q, n, r.ids, kept)
    ensures r.WindowTimedOut? <==> AllMiss(world, q, true, 0, Search(q.pattern), None, calls)
  {
    TimedOutIffAllMiss(world, q, true, 0, Search(q.pattern), None, calls);
    if q.focus {
      FoundOnlyWhenFocused(world, q, true, 0, Search(q.pattern), None, calls);
    }
    if SearchLists(world) {
      FixedWaitFindsWindows(world, calls, q);
    }
    var command := Search(q.pattern);
    var id: Option<string> := None;
    var n := calls;
    for i := 0 to Attempts(q.timeout)
      invariant WindowWait(world, calls, q, true) == WindowLoop(world, q, true, i, command, id, n)
    {
      var a := TryWindow(world, q, true, command, id, n);
      match a
      case Return(result) =>
        return result;
      case Miss(c, d, m) =>
        command, id, n := c, d, m;
    }
    return WindowTimedOut;
  }

  // ---------------------------------------------------------------------------------------------
  // Properties of the window wait.

  /** Without alternatives the wait never aborts with `ValueError`. */
  lemma {:induction false} NoOthersNeverAbort(world: World, q: WindowQuery, fixed: bool, i: nat, command: Command, id: Option<string>, calls: nat)
    requires q.others == []
    ensures !WindowLoop(world, q, fixed, i, command, id, calls).Aborted?
    decreases Attempts(q.timeout) - i
  {
    if i < Attempts(q.timeout) {
      match Round(world, q, fixed, command, id, calls)
      case Return(r) =>
      case Miss(c, d, n) => NoOthersNeverAbort(world, q, fixed, i + 1, c, d, n);
    }
  }

  /** Every remaining attempt, from the `i`-th on, misses. */
  ghost predicate AllMiss(world: World, q: WindowQuery, fixed: bool, i: nat, command: Command, id: Option<string>, calls: nat)
    decreases Attempts(q.timeout) - i
  {
    i >= Attempts(q.timeout) ||
      var a := Round(world, q, fixed, command, id, calls);
      a.Miss? && AllMiss(world, q, fixed, i + 1, a.command, a.id, a.calls)
  }

  /** The wait times out exactly when every one of its attempts misses. */
  lemma {:induction false} TimedOutIffAllMiss(world: World, q: WindowQuery, fixed: bool, i: nat, command: Command, id: Option<string>, calls: nat)
    ensures WindowLoop(world, q, fixed, i, command, id, calls).WindowTimedOut? <==> AllMiss(world, q, fixed, i, command, id, calls)
    decreases Attempts(q.timeout) - i
  {
    if i < Attempts(q.timeout) {
      match Round(world, q, fixed, command, id, calls)
      case Return(r) =>
      case Miss(c, d, n) => TimedOutIffAllMiss(world, q, fixed, i + 1, c, d, n);
    }
  }

  /** The window `p` took the focus: it is not the skipped id, `windowfocus` on it succeeded as
      xdotool call `n`, and the focus wait that followed saw it focused. */
  ghost predicate FocusedAt(world: World, q: WindowQuery, n: nat, p: string) {
    && Some(p) != q.skip
    && world(n, WindowFocus(p)).Output?
    && FocusWait(world, n + 1, p, Attempts(q.timeout), true).Ready?
  }

  /** With `focus`, an attempt returns a list only when its command succeeded, the list is that
      command's output, and the window it picked took the focus. */
  lemma RoundFoundFocused(world: World, q: WindowQuery, fixed: bool, command: Command, id: Option<string>, calls: nat)
    requires q.focus
    ensures var a := Round(world, q, fixed, command, id, calls);
      a.Return? && a.result.Found? ==>
        && world(calls, command).Output?
        && a.result.ids == SplitLines(world(calls, command).text)
        && Pick(a.result.ids, id).Some?
        && FocusedAt(world, q, calls + 1, Pick(a.result.ids, id).value)
  {
  }

  /** The id picked from `ids`, with `kept` the id picked before, took the focus at call `n`. */
  ghost predicate PickFocusedAt(world: World, q: WindowQuery, n: nat, ids: seq<string>, kept: Option<string>) {
    Pick(ids, kept).Some? && FocusedAt(world, q, n, Pick(ids, kept).value)
  }

  /** With `focus`, the wait returns a list only after the id picked from that list took the
      focus. */
  lemma {:induction false} FoundOnlyWhenFocused(world: World, q: WindowQuery, fixed: bool, i: nat, command: Command, id: Option<string>, calls: nat)
    requires q.focus
    ensures var r := WindowLoop(world, q, fixed, i, command, id, calls);
      r.Found? ==> exists n: nat, kept: Option<string> :: calls < n && PickFocusedAt(world, q, n, r.ids, kept)
    decreases Attempts(q.timeout) - i
  {
    if i < Attempts(q.timeout) {
      RoundFoundFocused(world, q, fixed, command, id, calls);
      match Round(world, q, fixed, command, id, calls)
      case Return(r) =>
        if r.Found? {
          assert PickFocusedAt(world, q, calls + 1, r.ids, id);
        }
      case Miss(c, d, n) => FoundOnlyWhenFocused(world, q, fixed, i + 1, c, d, n);
    }
  }

  /** An abort names one of the alternatives. */
  lemma {:induction false} AbortNamesAlternative(world: World, q: WindowQuery, fixed: bool, i: nat, command: Command, id: Option<string>, calls: nat)
    ensures WindowLoop(world, q, fixed, i, command, id, calls).Aborted? ==>
              WindowLoop(world, q, fixed, i, command, id, calls).other in q.others
    decreases Attempts(q.timeout) - i
  {
    if i < Attempts(q.timeout) {
      match Round(world, q, fixed, command, id, calls)
      case Return(r) =>
      case Miss(c, d, n) => AbortNamesAlternative(world, q, fixed, i + 1, c, d, n);
    }
  }

  /** A search that succeeds lists at least one window, as `xdotool search` does. */
  ghost predicate SearchLists(world: World) {
    forall n: nat, p: string :: world(n, Search(p)).Output? ==> SplitLines(world(n, Search(p)).text) != []
  }

  /** A search attempt that returns a list has read it from a successful search, so it is not
      empty, and its pick is not the skipped id. */
  lemma SearchRoundFoundHasPick(world: World, q: WindowQuery, id: Option<string>, calls: nat)
    requires SearchLists(world)
    ensures var a := Round(world, q, true, Search(q.pattern), id, calls);
      a.Return? && a.result.Found? ==> a.result.ids != [] && Pick(a.result.ids, None) != q.skip
  {
    var reply := world(calls, Search(q.pattern));
    if reply.Output? {
      var ids := SplitLines(reply.text);
      assert ids != [];
      assert Pick(ids, id) == Pick(ids, None);
    }
  }

  /** With the search kept as the command, a found list is never empty and its pick is not the
      skipped id. */
  lemma {:induction false} FixedFoundHasPick(world: World, q: WindowQuery, i: nat, id: Option<string>, calls: nat)
    requires SearchLists(world)
    ensures var r := WindowLoop(world, q, true, i, Search(q.pattern), id, calls);
      r.Found? ==> r.ids != [] && Pick(r.ids, None) != q.skip
    decreases Attempts(q.timeout) - i
  {
    if i < Attempts(q.timeout) {
      SearchRoundFoundHasPick(world, q, id, calls);
      match Round(world, q, true, Search(q.pattern), id, calls)
      case Return(r) =>
      case Miss(c, d, n) => FixedFoundHasPick(world, q, i + 1, d, n);
    }
  }

  /** The evidently intended search-every-attempt loop returns a non-empty list. */
  lemma FixedWaitFindsWindows(world: World, calls: nat, q: WindowQuery)
    requires SearchLists(world)
    ensures WindowWait(world, calls, q, true).Found? ==> WindowWait(world, calls, q, true).ids != []
  {
    FixedFoundHasPick(world, q, 0, None, calls);
  }

  /** A world where the search always finds window `7`, the first `windowfocus` fails and every
      later one succeeds with no output, and the focus is on `7`. */
  function StaleFocusWorld(): World {
    (n: nat, c: Command) =>
      if n == 1 then Failure
      else match c
        case Search(_) => Output("7")
        case WindowFocus(_) => Output("")
        case GetWindowFocus => Output("7")
  }

  lemma StaleWorldSearchLists()
    ensures SearchLists(StaleFocusWorld())
  {
    assert SplitLines("7") == ["7"];
  }

  /** In that world the focus wait that starts at call 4 sees `7` at once. */
  lemma StaleWorldFocused()
    ensures FocusWait(StaleFocusWorld(), 4, "7", 2, true) == Ready(1)
  {
    assert RStrip("7") == "7";
  }

  /** The first attempt finds `7` but its `windowfocus` fails. */
  lemma StaleWorldFirstRound(fixed: bool)
    ensures Round(StaleFocusWorld(), WindowQuery("Print", 1, true, None, []), fixed, Search("Print"), None, 0)
         == Miss(if fixed then Search("Print") else WindowFocus("7"), Some("7"), 2)
  {
    assert SplitLines("7") == ["7"];
  }

  /** The second attempt, as written, runs `windowfocus` where the search was, reads no ids, keeps
      `7`, focuses it again and returns the empty list. */
  lemma StaleWorldSecondRound()
    ensures Round(StaleFocusWorld(), WindowQuery("Print", 1, true, None, []), false, WindowFocus("7"), Some("7"), 2)
         == Return(Found([]))
  {
    StaleWorldFocused();
    assert SplitLines("") == [];
  }

  /** The second attempt, searching again, finds `7`, focuses it and returns `[7]`. */
  lemma FixedWorldSecondRound()
    ensures Round(StaleFocusWorld(), WindowQuery("Print", 1, true, None, []), true, Search("Print"), Some("7"), 2)
         == Return(Found(["7"]))
  {
    StaleWorldFocused();
    assert SplitLines("7") == ["7"];
  }

  /** As written, after one failed focus attempt the loop runs `windowfocus` where the search
      was, reads no ids from its empty output, and returns an empty list; searching every attempt
      returns `[7]`. */
  lemma StaleFocusCommandReturnsEmpty()
    ensures SearchLists(StaleFocusWorld())
    ensures WindowWait(StaleFocusWorld(), 0, WindowQuery("Print", 1, true, None, []), false) == Found([])
    ensures WindowWait(StaleFocusWorld(), 0, WindowQuery("Print", 1, true, None, []), true) == Found(["7"])
  {
    StaleWorldSearchLists();
    StaleWorldFirstRound(false);
    StaleWorldFirstRound(true);
    StaleWorldSecondRound();
    FixedWorldSecondRound();
  }

  // ---------------------------------------------------------------------------------------------
  // The wait point.

  /** The module-level `wait_for_key` flag. */
  class WaitFlag {
    var waitForKey: bool

    constructor()
      ensures !waitForKey
    {
      waitForKey := false;
    }

    /** `set_wait`. */
    method SetWait(state: bool)
      modifies this
      ensures waitForKey == state
    {
      waitForKey := state;
    }

    /** `wait_point`: whether it prompts for a key. */
    method WaitPoint() returns (prompted: bool)
      ensures prompted == waitForKey
    {
      prompted := waitForKey;
    }
  }

  /** Whether a wait point prompts after `set_wait` was called with `states`, in order. */
  function Prompts(states: seq<bool>): (p: bool)
  {
    if states == [] then false else states[|states| - 1]
  }

  /** Replays the `set_wait` calls on a fresh flag, then reaches a wait point. */
  method ReplaySetWait(states: seq<bool>) returns (prompted: bool)
    ensures prompted == Prompts(states)
  {
    var flag := new WaitFlag();
    for k := 0 to |states|
      invariant flag.waitForKey == Prompts(states[..k])
    {
      flag.SetWait(states[k]);
      assert states[..k + 1][k] == states[k];
    }
    assert states[..|states|] == states;
    prompted := flag.WaitPoint();
  }

  /** Only the most recent `set_wait` counts: calls made after earlier ones override them, and
      without any call the wait point does not prompt. */
  lemma LaterSetWaitWins(earlier: seq<bool>, later: seq<bool>)
    requires later != []
    ensures Prompts(earlier + later) == Prompts(later)
    ensures !Prompts([])
  {
    assert (earlier + later)[|earlier + later| - 1] == later[|later| - 1];
  }
}
